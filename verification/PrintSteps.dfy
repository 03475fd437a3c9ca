/** One write of the printer, as items of the tree: words, signs, blanks, line ends and places for layout.
    kclvm/ast_pretty/src/node.rs, kclvm/ast_pretty/src/lib.rs. */
module PrintSteps {
  import opened LexerSpec
  import opened Numbers
  import opened Relexing
  import opened Wrappers
  import opened PrintLexing
  import opened PrintAtoms
  import opened PrintItems
  import opened PrintCells
  import opened PrintOk
  import P = PrettyAst
  import PS = PrintSpec
  import TypePrinter
  import Strings

  /** What has been written is the items, which read. */
  ghost predicate Tracks(cc: CharClass, sh: PS.S, t: Items)
  {
    Cells(sh) == AllCells(t) && Reads(cc, t)
  }

  /** At the start of a line or behind a blank. */
  predicate Fresh(t: Items) { Last(t).None? || Last(t).value.Gap? }

  /** Anything may start here. */
  predicate Free(t: Items) { Fresh(t) || (Last(t).value.Punct? && Alone(Last(t).value.op)) }

  /** An expression may start here. */
  predicate Opens(t: Items) { Fresh(t) || Last(t).value.Punct? }

  /** An expression may end here. */
  predicate Shuts(t: Items)
  {
    Last(t).Some? && match Last(t).value case Note(_) => false case Punct(op) => Alone(op) case _ => true
  }

  lemma FreeOpens(t: Items)
    ensures Fresh(t) ==> Free(t)
    ensures Free(t) ==> Opens(t)
    ensures Fresh(t) && t != [] && t[|t| - 1] == LineEnd ==> Shuts(t)
  {
  }

  lemma NothingTracks(cc: CharClass)
    ensures Tracks(cc, [], []) && Fresh([])
  {
  }

  // ----- single steps -----

  lemma AtomStep(cc: CharClass, sh: PS.S, t: Items, a: Atom)
    requires Tracks(cc, sh, t) && AtomOk(cc, a) && !a.Note? && Fits(t, a)
    ensures Tracks(cc, PS.W(sh, AtomText(a)), A(t, a)) && Last(A(t, a)) == Some(a)
  {
    hide AtomOk, AtomText, Fits;
    CellsAppend(sh, PS.Tok(AtomText(a)));
    ItemAppend(t, Is(a));
    assert A(t, a)[..|t|] == t;
  }

  lemma EndStep(cc: CharClass, sh: PS.S, t: Items)
    requires Tracks(cc, sh, t)
    ensures Tracks(cc, PS.B(sh), End(t)) && Tracks(cc, PS.N(sh), End(t))
    ensures Fresh(End(t)) && Free(End(t)) && Opens(End(t)) && Shuts(End(t))
  {
    CellsAppend(sh, PS.Break);
    CellsAppend(sh, PS.Newline(0));
    ItemAppend(t, LineEnd);
    assert End(t)[..|t|] == t;
  }

  lemma LaySame(t: Items)
    ensures Last(Lay(t)) == Last(t)
    ensures (Fresh(Lay(t)) <==> Fresh(t)) && (Free(Lay(t)) <==> Free(t)) && (Opens(Lay(t)) <==> Opens(t))
    ensures Shuts(Lay(t)) <==> Shuts(t)
  {
    assert Lay(t)[..|t|] == t;
  }

  lemma PlaceCells(sh: PS.S, t: Items, piece: PS.Piece, item: Item)
    requires Cells(sh) == AllCells(t) && PieceCells(piece) == ItemCells(item)
    ensures Cells(sh + [piece]) == AllCells(t + [item])
  {
    hide Cells, AllCells, PieceCells, ItemCells;
    CellsAppend(sh, piece);
    ItemAppend(t, item);
  }

  lemma LayReads(cc: CharClass, t: Items)
    ensures Reads(cc, Lay(t)) <==> Reads(cc, t)
  {
    assert Lay(t)[..|t|] == t;
  }

  lemma LayStep(cc: CharClass, sh: PS.S, t: Items)
    requires Tracks(cc, sh, t)
    ensures Tracks(cc, PS.F(sh), Lay(t)) && Tracks(cc, PS.C(sh), Lay(t))
    ensures forall at :: Tracks(cc, PS.V(sh, at), Lay(t))
    ensures forall lines, forced :: Tracks(cc, PS.O(sh, lines, forced), Lay(t))
  {
    hide Cells, AllCells, Reads;
    LayReads(cc, t);
    PlaceCells(sh, t, PS.Fill(0), Layout);
    PlaceCells(sh, t, PS.Close(true, 0), Layout);
    forall at ensures Tracks(cc, PS.V(sh, at), Lay(t)) { PlaceCells(sh, t, PS.Visit(at, [], 0), Layout); }
    forall lines, forced ensures Tracks(cc, PS.O(sh, lines, forced), Lay(t)) {
      PlaceCells(sh, t, PS.Open(true, 0, lines, forced, None), Layout);
    }
  }

  lemma IndentStep(cc: CharClass, sh: PS.S, t: Items)
    ensures Tracks(cc, PS.I(sh), t) <==> Tracks(cc, sh, t)
    ensures Tracks(cc, PS.D(sh), t) <==> Tracks(cc, sh, t)
  {
    CellsAppend(sh, PS.Enter);
    CellsAppend(sh, PS.Leave);
    assert Cells(sh) + [] == Cells(sh);
  }

  /** Two writes are one. */
  lemma JoinedCells(sh: PS.S, a: string, b: string)
    ensures Cells(PS.W(PS.W(sh, a), b)) == Cells(PS.W(sh, a + b))
  {
    hide Cells, Chars;
    CellsAppend(sh, PS.Tok(a));
    CellsAppend(PS.W(sh, a), PS.Tok(b));
    CellsAppend(sh, PS.Tok(a + b));
    CharsAppend(a, b);
  }

  lemma Joined(cc: CharClass, sh: PS.S, a: string, b: string, t: Items)
    ensures Tracks(cc, PS.W(PS.W(sh, a), b), t) <==> Tracks(cc, PS.W(sh, a + b), t)
  {
    hide Cells, AllCells, Reads;
    JoinedCells(sh, a, b);
  }

  lemma EmptyStep(cc: CharClass, sh: PS.S, t: Items)
    ensures Tracks(cc, PS.W(sh, ""), t) <==> Tracks(cc, sh, t)
  {
    CellsAppend(sh, PS.Tok(""));
    assert Cells(sh) + [] == Cells(sh);
  }

  lemma BetweenReads(cc: CharClass, t: Items)
    requires Reads(cc, t) && Shuts(t)
    ensures Reads(cc, t + [Between]) && Last(t + [Between]) == Some(Gap(' '))
  {
    assert (t + [Between])[..|t|] == t;
  }

  lemma BetweenStep(cc: CharClass, sh: PS.S, t: Items)
    requires Tracks(cc, sh, t) && Shuts(t)
    ensures var t' := t + [Between];
      Tracks(cc, sh + [PS.Between(true, 0)], t') && Fresh(t') && Free(t') && Opens(t')
  {
    hide Cells, AllCells, Reads, Shuts;
    BetweenReads(cc, t);
    PlaceCells(sh, t, PS.Between(true, 0), Between);
  }

  lemma SplitCells(sh: PS.S, t: Items, line: nat)
    requires Cells(sh) == AllCells(t)
    ensures Cells(PS.W(PS.V(PS.W(sh, "el"), PS.AtNode(line)), "if")) == AllCells(t + [Split])
  {
    hide Cells, AllCells, Chars;
    var visited := PS.V(PS.W(sh, "el"), PS.AtNode(line));
    CellsAppend(sh, PS.Tok("el"));
    CellsAppend(PS.W(sh, "el"), PS.Visit(PS.AtNode(line), [], 0));
    CellsAppend(visited, PS.Tok("if"));
    ItemAppend(t, Split);
    Regrouped(Cells(sh), Chars("el"), [LayoutCell], Chars("if"));
  }

  lemma Regrouped(a: seq<Cell>, b: seq<Cell>, c: seq<Cell>, d: seq<Cell>)
    ensures a + b + c + d == a + (b + c + d)
  {
  }

  lemma SplitReads(cc: CharClass, t: Items)
    requires Reads(cc, t) && Fresh(t)
    ensures Reads(cc, t + [Split]) && Last(t + [Split]) == Some(Name("elif"))
  {
    assert (t + [Split])[..|t|] == t;
  }

  lemma SplitStep(cc: CharClass, sh: PS.S, t: Items, line: nat)
    requires Tracks(cc, sh, t) && Fresh(t)
    ensures Tracks(cc, PS.W(PS.V(PS.W(sh, "el"), PS.AtNode(line)), "if "), Blank(t + [Split]))
    ensures Opens(Blank(t + [Split]))
  {
    hide Cells, AllCells, Reads, Last;
    var visited := PS.V(PS.W(sh, "el"), PS.AtNode(line));
    SplitCells(sh, t, line);
    SplitReads(cc, t);
    assert Tracks(cc, PS.W(visited, "if"), t + [Split]);
    hide Tracks;
    BlankStep(cc, PS.W(visited, "if"), t + [Split]);
    Joined(cc, visited, "if", " ", Blank(t + [Split]));
    assert "if" + " " == "if ";
  }

  // ----- words and signs -----

  lemma BlankStep(cc: CharClass, sh: PS.S, t: Items)
    requires Tracks(cc, sh, t)
    requires Last(t).Some? ==> !Last(t).value.Note?
    ensures Tracks(cc, PS.W(sh, " "), Blank(t))
    ensures Fresh(Blank(t)) && Free(Blank(t)) && Opens(Blank(t)) && Shuts(Blank(t))
  {
    hide Tracks;
    AtomStep(cc, sh, t, Gap(' '));
  }

  lemma WordStep(cc: CharClass, sh: PS.S, t: Items, w: string)
    requires Tracks(cc, sh, t) && Opens(t) && IsWord(cc, w)
    ensures Tracks(cc, PS.W(sh, w), Named(t, w)) && Shuts(Named(t, w))
  {
    hide Tracks, IsWord;
    AtomStep(cc, sh, t, Name(w));
  }

  lemma GivenStep(cc: CharClass, sh: PS.S, t: Items, text: string)
    requires Tracks(cc, sh, t) && Opens(t) && AtomOk(cc, Given(text))
    ensures Tracks(cc, PS.W(sh, text), A(t, Given(text))) && Shuts(A(t, Given(text)))
  {
    hide Tracks, AtomOk;
    AtomStep(cc, sh, t, Given(text));
  }

  /** A sign behind an expression. */
  lemma CloseStep(cc: CharClass, sh: PS.S, t: Items, op: Op)
    requires Tracks(cc, sh, t) && Shuts(t) && Closing(op)
    ensures Tracks(cc, PS.W(sh, Spelling(op)), Sign(t, op)) && Opens(Sign(t, op))
    ensures Alone(op) ==> Free(Sign(t, op)) && Shuts(Sign(t, op))
  {
    hide Tracks, Spelling;
    AtomStep(cc, sh, t, Punct(op));
  }

  /** A sign that an expression starts with, or any sign behind a blank or a sign that stands alone. */
  lemma OpenStep(cc: CharClass, sh: PS.S, t: Items, op: Op)
    requires Tracks(cc, sh, t) && op != Dollar && (Free(t) || (Opens(t) && Opening(op)))
    ensures Tracks(cc, PS.W(sh, Spelling(op)), Sign(t, op)) && Opens(Sign(t, op))
    ensures Alone(op) ==> Free(Sign(t, op)) && Shuts(Sign(t, op))
  {
    hide Tracks, Spelling;
    AtomStep(cc, sh, t, Punct(op));
  }

  lemma ShutsIsNoNote(t: Items)
    ensures Shuts(t) ==> !Last(t).value.Note?
    ensures Opens(t) && Last(t).Some? ==> !Last(t).value.Note?
  {
  }

  lemma MidStep(cc: CharClass, sh: PS.S, t: Items, w: string)
    requires Tracks(cc, sh, t) && Shuts(t) && IsWord(cc, w)
    ensures Tracks(cc, PS.W(sh, " " + w + " "), Mid(t, w)) && Fresh(Mid(t, w)) && Free(Mid(t, w)) && Opens(Mid(t, w))
  {
    hide Tracks, IsWord, Last;
    var b := PS.W(sh, " ");
    ShutsIsNoNote(t);
    BlankStep(cc, sh, t);
    WordStep(cc, b, Blank(t), w);
    ShutsIsNoNote(Named(Blank(t), w));
    BlankStep(cc, PS.W(b, w), Named(Blank(t), w));
    Joined(cc, sh, " ", w, Named(Blank(t), w));
    hide Shuts, Fresh, Free, Opens;
    Joined3(cc, sh, " ", w, " ", Mid(t, w));
  }

  lemma Joined3(cc: CharClass, sh: PS.S, a: string, b: string, c: string, t: Items)
    ensures Tracks(cc, PS.W(PS.W(PS.W(sh, a), b), c), t) <==> Tracks(cc, PS.W(sh, a + b + c), t)
  {
    hide Cells, Chars, AllCells, Reads;
    JoinedCells(sh, a, b);
    CellsAppend(PS.W(PS.W(sh, a), b), PS.Tok(c));
    CellsAppend(PS.W(sh, a + b), PS.Tok(c));
    JoinedCells(sh, a + b, c);
  }

  lemma CommaStep(cc: CharClass, sh: PS.S, t: Items)
    requires Tracks(cc, sh, t) && Shuts(t)
    ensures Tracks(cc, PS.W(sh, ", "), Listed(t)) && Fresh(Listed(t)) && Free(Listed(t)) && Opens(Listed(t))
  {
    hide Tracks, Last;
    CloseStep(cc, sh, t, Op.Comma);
    ShutsIsNoNote(Sign(t, Op.Comma));
    BlankStep(cc, PS.W(sh, ","), Sign(t, Op.Comma));
    Joined(cc, sh, ",", " ", Listed(t));
    assert "," + " " == ", ";
  }

  lemma ColonStep(cc: CharClass, sh: PS.S, t: Items)
    requires Tracks(cc, sh, t) && Shuts(t)
    ensures Tracks(cc, PS.W(sh, ": "), Typed(t)) && Tracks(cc, PS.W(PS.W(sh, ":"), " "), Typed(t))
    ensures Fresh(Typed(t)) && Free(Typed(t)) && Opens(Typed(t))
  {
    hide Tracks, Last;
    CloseStep(cc, sh, t, Op.Colon);
    ShutsIsNoNote(Sign(t, Op.Colon));
    BlankStep(cc, PS.W(sh, ":"), Sign(t, Op.Colon));
    Joined(cc, sh, ":", " ", Typed(t));
    assert ":" + " " == ": ";
  }

  /** A sign between blanks. */
  lemma SignStep(cc: CharClass, sh: PS.S, t: Items, op: Op)
    requires Tracks(cc, sh, t) && Shuts(t) && op != Dollar
    ensures var t' := Blank(Sign(Blank(t), op));
      && Tracks(cc, PS.W(PS.W(PS.W(sh, " "), Spelling(op)), " "), t')
      && Fresh(t') && Free(t') && Opens(t')
  {
    hide Tracks, Last, Spelling;
    ShutsIsNoNote(t);
    BlankStep(cc, sh, t);
    OpenStep(cc, PS.W(sh, " "), Blank(t), op);
    ShutsIsNoNote(Sign(Blank(t), op));
    BlankStep(cc, PS.W(PS.W(sh, " "), Spelling(op)), Sign(Blank(t), op));
  }

  lemma EqualsStep(cc: CharClass, sh: PS.S, t: Items)
    requires Tracks(cc, sh, t) && Shuts(t)
    ensures Tracks(cc, PS.W(sh, " = "), Equals(t)) && Fresh(Equals(t)) && Free(Equals(t)) && Opens(Equals(t))
  {
    hide Tracks, Last;
    SignStep(cc, sh, t, Op.Eq);
    Joined3(cc, sh, " ", "=", " ", Equals(t));
    assert " " + "=" + " " == " = ";
  }

  // ----- names -----

  /** Names with a dot before each. */
  function Dotted(names: seq<P.Part>): string
  {
    if names == [] then "" else Dotted(names[..|names| - 1]) + ("." + names[|names| - 1].text)
  }

  lemma {:induction false} DottedIsJoin(names: seq<P.Part>)
    requires names != []
    ensures "." + Strings.Join(PS.Texts(names), '.') == Dotted(names)
    decreases |names|
  {
    hide Strings.Join, Dotted;
    var n := |names| - 1;
    DottedStep(names);
    if n == 0 {
      assert PS.Texts(names) == [names[0].text];
      JoinOne(names[0].text);
    } else {
      DottedIsJoin(names[..n]);
      assert PS.Texts(names) == PS.Texts(names[..n]) + [names[n].text];
      Strings.JoinAppend(PS.Texts(names[..n]), [names[n].text], '.');
      JoinOne(names[n].text);
      var front := Strings.Join(PS.Texts(names[..n]), '.');
      assert "." + (front + ['.'] + names[n].text) == ("." + front) + ("." + names[n].text);
    }
  }

  lemma JoinOne(text: string)
    ensures Strings.Join([text], '.') == text
  {
  }

  lemma DottedStep(names: seq<P.Part>)
    requires names != []
    ensures Dotted(names) == Dotted(names[..|names| - 1]) + ("." + names[|names| - 1].text)
    ensures |names| == 1 ==> Dotted(names) == "." + names[0].text
  {
  }

  lemma {:induction false} FieldsStep(cc: CharClass, sh: PS.S, t: Items, names: seq<P.Part>)
    requires Tracks(cc, sh, t) && Shuts(t) && FieldsOk(cc, names)
    ensures Tracks(cc, PS.W(sh, Dotted(names)), FieldsItems(t, names)) && Shuts(FieldsItems(t, names))
    decreases |names|
  {
    hide Tracks;
    if names == [] {
      EmptyStep(cc, sh, t);
    } else {
      var n := |names| - 1;
      FieldsStep(cc, sh, t, names[..n]);
      ShutsMeetsField(FieldsItems(t, names[..n]), names[n].text);
      AtomStep(cc, PS.W(sh, Dotted(names[..n])), FieldsItems(t, names[..n]), Field(names[n].text));
      Joined(cc, sh, Dotted(names[..n]), "." + names[n].text, FieldsItems(t, names));
    }
  }

  lemma ShutsMeetsField(t: Items, text: string)
    requires Shuts(t)
    ensures Fits(t, Field(text))
  {
  }

  lemma NameStep(cc: CharClass, sh: PS.S, t: Items, x: P.Identifier)
    requires Tracks(cc, sh, t) && Opens(t) && NameOk(cc, x)
    ensures Tracks(cc, PS.W(sh, PS.Name(x)), NameItems(t, x)) && Shuts(NameItems(t, x))
  {
    hide Tracks, Opens, Shuts, FieldsItems, FieldsOk, IsWord;
    var w, rest := x.names[0].text, x.names[1..];
    WordStep(cc, sh, t, w);
    FieldsStep(cc, PS.W(sh, w), Named(t, w), rest);
    Joined(cc, sh, w, Dotted(rest), NameItems(t, x));
    NameText(x);
  }

  lemma NameText(x: P.Identifier)
    requires x.names != []
    ensures PS.Name(x) == x.names[0].text + Dotted(x.names[1..])
  {
    var texts, rest := PS.Texts(x.names), x.names[1..];
    if rest != [] {
      DottedIsJoin(rest);
      assert texts[1..] == PS.Texts(rest);
      Strings.JoinCons(texts[0], texts[1..], '.');
      assert texts == [texts[0]] + texts[1..];
    } else {
      assert texts == [x.names[0].text];
    }
  }

  /** Behind an expression: a dot and a dotted name. */
  lemma SelectStep(cc: CharClass, sh: PS.S, t: Items, x: P.Identifier)
    requires Tracks(cc, sh, t) && Shuts(t) && FieldsOk(cc, x.names) && x.names != []
    ensures Tracks(cc, PS.W(PS.W(sh, "."), PS.Name(x)), FieldsItems(t, x.names)) && Shuts(FieldsItems(t, x.names))
  {
    hide Tracks, Shuts, FieldsItems, FieldsOk, Dotted;
    FieldsStep(cc, sh, t, x.names);
    DottedIsJoin(x.names);
    Joined(cc, sh, ".", PS.Name(x), FieldsItems(t, x.names));
  }

  lemma {:induction false} NamesStep(cc: CharClass, sh: PS.S, t: Items, xs: seq<P.Identifier>)
    requires Tracks(cc, sh, t) && Opens(t) && forall i | 0 <= i < |xs| :: NameOk(cc, xs[i])
    ensures Tracks(cc, PS.IdentifiersShape(sh, xs), NamesItems(t, xs)) && (xs != [] ==> Shuts(NamesItems(t, xs)))
    decreases |xs|
  {
    hide Tracks, Opens, Shuts, NameItems, NameOk, PS.Name, Listed;
    if xs != [] {
      var n := |xs| - 1;
      if n == 0 {
        NameStep(cc, sh, t, xs[n]);
      } else {
        NamesStep(cc, sh, t, xs[..n]);
        var b, u := PS.IdentifiersShape(sh, xs[..n]), NamesItems(t, xs[..n]);
        CommaStep(cc, b, u);
        FreeOpens(Listed(u));
        NameStep(cc, PS.W(b, ", "), Listed(u), xs[n]);
      }
    }
  }
}
