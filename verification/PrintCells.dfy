/** From printed pieces to atoms: layout only goes where the tree has a place for it, and so the printed text is lexed
    as the atoms of the tree with those of the layout between. kclvm/ast_pretty/src. */
module PrintCells {
  import opened LexerSpec
  import opened Wrappers
  import opened Relexing
  import opened PrintLexing
  import opened PrintAtoms
  import opened PrintItems
  import P = PrettyAst
  import PS = PrintSpec

  // ----- cells: characters and places for layout -----

  datatype Cell = Char(c: char) | LineCell | LayoutCell | BetweenCell

  function Chars(s: string): seq<Cell> { seq(|s|, i requires 0 <= i < |s| => Char(s[i])) }

  function PieceCells(piece: PS.Piece): seq<Cell>
  {
    match piece
    case Tok(text) => Chars(text)
    case Enter => []
    case Leave => []
    case Rest(_, _) => []
    case Break => [LineCell]
    case Newline(_) => [LineCell]
    case Between(_, _) => [BetweenCell]
    case _ => [LayoutCell]
  }

  function Cells(pieces: PS.S): seq<Cell>
  {
    if pieces == [] then [] else Cells(pieces[..|pieces| - 1]) + PieceCells(pieces[|pieces| - 1])
  }

  function ItemCells(item: Item): seq<Cell>
  {
    match item
    case Is(a) => Chars(AtomText(a))
    case LineEnd => [LineCell]
    case Layout => [LayoutCell]
    case Between => [BetweenCell]
    case Split => Chars("el") + [LayoutCell] + Chars("if")
  }

  function AllCells(t: Items): seq<Cell>
  {
    if t == [] then [] else AllCells(t[..|t| - 1]) + ItemCells(t[|t| - 1])
  }

  lemma CellsAppend(pieces: PS.S, piece: PS.Piece)
    ensures Cells(pieces + [piece]) == Cells(pieces) + PieceCells(piece)
  {
    assert (pieces + [piece])[..|pieces|] == pieces;
  }

  lemma ItemAppend(t: Items, item: Item)
    ensures AllCells(t + [item]) == AllCells(t) + ItemCells(item)
  {
    assert (t + [item])[..|t|] == t;
  }

  lemma CharsAppend(a: string, b: string)
    ensures Chars(a + b) == Chars(a) + Chars(b)
  {
  }

  /** The shape of the output has the cells of the output. */
  lemma {:induction false} ShapeCells(ps: seq<PS.Piece>)
    ensures Cells(PS.Shape(ps)) == Cells(ps)
    decreases |ps|
  {
    hide PieceCells, PS.Erase;
    if ps != [] {
      var n := |ps| - 1;
      var front := PS.Shape(ps[..n]);
      ShapeCells(ps[..n]);
      ErasedCells(ps[n]);
      if PS.Erase(ps[n]) == [] { assert front + [] == front; }
      else {
        assert PS.Erase(ps[n]) == [PS.Erase(ps[n])[0]];
        CellsAppend(front, PS.Erase(ps[n])[0]);
      }
    }
  }

  lemma ErasedCells(piece: PS.Piece)
    ensures var e := PS.Erase(piece);
      if e == [] then PieceCells(piece) == [] else |e| == 1 && PieceCells(e[0]) == PieceCells(piece)
  {
  }

  // ----- what layout puts into its places -----

  type Fill = seq<Atom>

  function Blanks(n: nat): Fill { seq(n, _ => Gap(' ')) }

  function Breaks(indent: nat): Fill { [Gap('\n')] + Blanks(indent * PS.INDENT_LEN) }

  function NotesFill(notes: seq<P.Comment>, indent: nat): Fill
  {
    if notes == [] then []
    else NotesFill(notes[..|notes| - 1], indent) + [Note(notes[|notes| - 1].text)] + Breaks(indent)
  }

  function PieceFill(piece: PS.Piece): Fill
  {
    match piece
    case Break => [Gap('\n')]
    case Newline(indent) => Breaks(indent)
    case Fill(indent) => Blanks(indent * PS.INDENT_LEN)
    case Visit(_, notes, indent) => NotesFill(notes, indent)
    case Open(oneLine, indent, _, _, _) => if oneLine then [] else Breaks(indent)
    case Between(oneLine, indent) => if oneLine then [Punct(Op.Comma), Gap(' ')] else Breaks(indent)
    case Close(oneLine, indent) => if oneLine then [] else Breaks(indent)
    case _ => []
  }

  predicate HasFill(piece: PS.Piece)
  {
    !piece.Tok? && !piece.Enter? && !piece.Leave? && !piece.Rest?
  }

  /** The atoms of the layout, place by place. */
  function FillsOf(ps: seq<PS.Piece>): seq<Fill>
  {
    if ps == [] then []
    else
      var n := |ps| - 1;
      FillsOf(ps[..n]) + if HasFill(ps[n]) then [PieceFill(ps[n])] else []
  }

  lemma {:induction false} AtomsTextAppend(a: seq<Atom>, b: seq<Atom>)
    ensures AtomsText(a + b) == AtomsText(a) + AtomsText(b)
    decreases |a|
  {
    hide AtomText;
    if a == [] {
      assert a + b == b;
    } else {
      AtomsTextAppend(a[1..], b);
      assert (a + b)[0] == a[0] && (a + b)[1..] == a[1..] + b;
    }
  }

  lemma OneAtomText(a: Atom)
    ensures AtomsText([a]) == AtomText(a)
  {
    assert [a][1..] == [];
  }

  lemma {:induction false} BlanksText(n: nat)
    ensures AtomsText(Blanks(n)) == PS.Spaces(n)
  {
    if n > 0 {
      BlanksText(n - 1);
      assert Blanks(n)[1..] == Blanks(n - 1) && Blanks(n)[0] == Gap(' ');
      assert PS.Spaces(n) == " " + PS.Spaces(n - 1);
    }
  }

  lemma BreaksText(indent: nat)
    ensures AtomsText(Breaks(indent)) == PS.NewlineText(indent)
  {
    BlanksText(indent * PS.INDENT_LEN);
    OneAtomText(Gap('\n'));
    AtomsTextAppend([Gap('\n')], Blanks(indent * PS.INDENT_LEN));
  }

  lemma {:induction false} NotesFillText(notes: seq<P.Comment>, indent: nat)
    ensures AtomsText(NotesFill(notes, indent)) == PS.NotesText(notes, indent)
    decreases |notes|
  {
    hide Breaks, PS.NewlineText;
    if notes != [] {
      var n := |notes| - 1;
      NotesFillText(notes[..n], indent);
      BreaksText(indent);
      OneAtomText(Note(notes[n].text));
      AtomsTextAppend(NotesFill(notes[..n], indent), [Note(notes[n].text)]);
      AtomsTextAppend(NotesFill(notes[..n], indent) + [Note(notes[n].text)], Breaks(indent));
    }
  }

  lemma FillText(piece: PS.Piece)
    requires HasFill(piece)
    ensures AtomsText(PieceFill(piece)) == PS.PieceText(piece)
  {
    hide Breaks, PS.NewlineText, NotesFill, PS.NotesText, Blanks, PS.Spaces;
    match piece
    case Break => OneAtomText(Gap('\n'));
    case Newline(indent) => BreaksText(indent);
    case Fill(indent) => BlanksText(indent * PS.INDENT_LEN);
    case Visit(_, notes, indent) => NotesFillText(notes, indent);
    case Open(_, indent, _, _, _) => BreaksText(indent);
    case Between(_, indent) =>
      BreaksText(indent);
      CommaText();
    case Close(_, indent) => BreaksText(indent);
  }

  lemma CommaText()
    ensures AtomsText([Punct(Op.Comma), Gap(' ')]) == ", "
  {
    assert [Punct(Op.Comma), Gap(' ')][1..] == [Gap(' ')];
    OneAtomText(Gap(' '));
  }

  // ----- the text of cells -----

  /** One fill for each place. */
  predicate Matches(cells: seq<Cell>, fills: seq<Fill>)
  {
    if cells == [] then fills == []
    else
      var n := |cells| - 1;
      if cells[n].Char? then Matches(cells[..n], fills)
      else
        fills != [] && Matches(cells[..n], fills[..|fills| - 1]) && FillFits(cells[n], fills[|fills| - 1])
  }

  function CellsText(cells: seq<Cell>, fills: seq<Fill>): string
    requires Matches(cells, fills)
  {
    if cells == [] then ""
    else
      var n := |cells| - 1;
      match cells[n]
      case Char(c) => CellsText(cells[..n], fills) + [c]
      case _ => CellsText(cells[..n], fills[..|fills| - 1]) + AtomsText(fills[|fills| - 1])
  }

  /** A comment as the parser has it. */
  predicate CommentText(text: string) { text != "" && text[0] == '#' && '\n' !in text }

  /** Layout is made of blanks, line ends and comments, each comment before a line end. */
  predicate LayoutFill(f: Fill)
  {
    forall i | 0 <= i < |f| ::
      || f[i] == Gap(' ') || f[i] == Gap('\n')
      || (f[i].Note? && CommentText(f[i].text) && i + 1 < |f| && f[i + 1] == Gap('\n'))
  }

  predicate LineFill(f: Fill)
  {
    f != [] && f[0] == Gap('\n') && LayoutFill(f)
  }

  predicate FillFits(place: Cell, f: Fill)
  {
    match place
    case Char(_) => false
    case LineCell => LineFill(f)
    case LayoutCell => LayoutFill(f)
    case BetweenCell => BetweenFill(f)
  }

  predicate BetweenFill(f: Fill)
  {
    f == [Punct(Op.Comma), Gap(' ')] || (f != [] && LayoutFill(f))
  }

  lemma CharText(cells: seq<Cell>, c: char, fills: seq<Fill>)
    ensures Matches(cells + [Char(c)], fills) <==> Matches(cells, fills)
    ensures Matches(cells, fills) ==> CellsText(cells + [Char(c)], fills) == CellsText(cells, fills) + [c]
  {
    assert (cells + [Char(c)])[..|cells|] == cells;
  }

  lemma {:induction false} CharsText(cells: seq<Cell>, s: string, fills: seq<Fill>)
    ensures Matches(cells + Chars(s), fills) <==> Matches(cells, fills)
    ensures Matches(cells, fills) ==> CellsText(cells + Chars(s), fills) == CellsText(cells, fills) + s
    decreases |s|
  {
    hide Matches, CellsText;
    if s == "" {
      assert cells + Chars(s) == cells;
    } else {
      var n := |s| - 1;
      CharsText(cells, s[..n], fills);
      CharText(cells + Chars(s[..n]), s[n], fills);
      assert cells + Chars(s) == (cells + Chars(s[..n])) + [Char(s[n])];
      assert s == s[..n] + [s[n]];
    }
  }

  lemma PlaceText(cells: seq<Cell>, place: Cell, fills: seq<Fill>, f: Fill)
    requires Matches(cells, fills) && FillFits(place, f)
    ensures Matches(cells + [place], fills + [f])
    ensures CellsText(cells + [place], fills + [f]) == CellsText(cells, fills) + AtomsText(f)
  {
    assert (cells + [place])[..|cells|] == cells && (fills + [f])[..|fills|] == fills;
  }

  lemma {:induction false} NotesAreLayout(notes: seq<P.Comment>, indent: nat)
    requires forall note | note in notes :: CommentText(note.text)
    ensures LayoutFill(NotesFill(notes, indent))
    decreases |notes|
  {
    if notes != [] { NotesAreLayout(notes[..|notes| - 1], indent); }
  }

  lemma FillIsLayout(piece: PS.Piece)
    requires HasFill(piece) && forall note | note in PS.PieceNotes(piece) :: CommentText(note.text)
    ensures |PieceCells(piece)| == 1 && FillFits(PieceCells(piece)[0], PieceFill(piece))
  {
    hide NotesFill;
    if piece.Visit? { NotesAreLayout(piece.notes, piece.indent); }
  }

  lemma OnePieceMore(cells: seq<Cell>, fills: seq<Fill>, piece: PS.Piece)
    requires Matches(cells, fills) && !piece.Rest?
    requires forall note | note in PS.PieceNotes(piece) :: CommentText(note.text)
    ensures var more := fills + if HasFill(piece) then [PieceFill(piece)] else [];
      && Matches(cells + PieceCells(piece), more)
      && CellsText(cells + PieceCells(piece), more) == CellsText(cells, fills) + PS.PieceText(piece)
  {
    hide PieceFill, PS.PieceText, Matches, CellsText, FillFits, CommentText;
    if HasFill(piece) {
      FillIsLayout(piece);
      FillText(piece);
      PlaceText(cells, PieceCells(piece)[0], fills, PieceFill(piece));
      assert PieceCells(piece) == [PieceCells(piece)[0]];
    } else {
      TextOfTok(piece);
      CharsText(cells, if piece.Tok? then piece.text else "", fills);
      assert fills + [] == fills;
    }
  }

  /** The printed text is that of its cells, with the layout in its places. */
  lemma {:induction false} RenderIsCells(ps: seq<PS.Piece>)
    requires forall i | 0 <= i < |ps| :: !ps[i].Rest?
    requires forall note | note in PS.NotesOf(ps) :: CommentText(note.text)
    ensures Matches(Cells(ps), FillsOf(ps)) && PS.Render(ps) == CellsText(Cells(ps), FillsOf(ps))
    decreases |ps|
  {
    hide PieceFill, PieceCells, HasFill, PS.PieceText, PS.PieceNotes, Matches, CellsText, CommentText;
    if ps == [] {
      NoCells();
    } else {
      var n := |ps| - 1;
      RenderIsCells(ps[..n]);
      OnePieceMore(Cells(ps[..n]), FillsOf(ps[..n]), ps[n]);
    }
  }

  lemma NoCells()
    ensures Matches([], []) && CellsText([], []) == ""
  {
  }

  lemma TextOfTok(piece: PS.Piece)
    requires !HasFill(piece) && !piece.Rest?
    ensures var text := if piece.Tok? then piece.text else "";
      PS.PieceText(piece) == text && PieceCells(piece) == Chars(text)
  {
  }

  // ----- the atoms of a printed tree -----

  /** The atoms of the tree with those of the layout in their places. A comment inside `elif` leaves two words. */
  function Filled(t: Items, fills: seq<Fill>): seq<Atom>
  {
    if t == [] then []
    else
      var front, item, m := t[..|t| - 1], t[|t| - 1], |fills| - 1;
      if item.Is? then Filled(front, fills) + [item.atom]
      else if fills == [] then []
      else if item.Split? then
        Filled(front, fills[..m]) + if fills[m] == [] then [Name("elif")] else [Name("el")] + fills[m] + [Name("if")]
      else Filled(front, fills[..m]) + fills[m]
  }

  /** The last atom, when layout adds nothing. */
  function Last(t: Items): Option<Atom>
  {
    if t == [] then None
    else match t[|t| - 1]
    case Is(a) => Some(a)
    case LineEnd => Some(Gap('\n'))
    case Layout => Last(t[..|t| - 1])
    case Between => Some(Gap(' '))
    case Split => Some(Name("elif"))
  }

  predicate Fits(t: Items, a: Atom) { Last(t).Some? ==> Meets(Last(t).value, a) }

  /** Every atom of the tree may stand where it does, whatever layout is put before it. */
  ghost predicate Reads(cc: CharClass, t: Items)
  {
    t != [] ==>
      var front := t[..|t| - 1];
      Reads(cc, front) && match t[|t| - 1]
        case Is(a) => AtomOk(cc, a) && !a.Note? && Fits(front, a)
        case LineEnd => true
        case Layout => true
        case Between => Fits(front, Punct(Op.Comma))
        case Split => Fits(front, Name("elif"))
  }

  lemma {:induction false} SplitMatches(cells: seq<Cell>, fills: seq<Fill>)
    requires Matches(cells + ItemCells(Split), fills)
    ensures fills != [] && Matches(cells, fills[..|fills| - 1]) && LayoutFill(fills[|fills| - 1])
    ensures CellsText(cells + ItemCells(Split), fills)
      == CellsText(cells, fills[..|fills| - 1]) + ("el" + AtomsText(fills[|fills| - 1]) + "if")
  {
    hide Matches, CellsText, Chars;
    var c1 := cells + Chars("el");
    var c2, m := c1 + [LayoutCell], |fills| - 1;
    assert cells + ItemCells(Split) == c2 + Chars("if");
    CharsText(c2, "if", fills);
    PlaceMatches(c1, LayoutCell, fills);
    CharsText(cells, "el", fills[..m]);
    PlaceText(c1, LayoutCell, fills[..m], fills[m]);
    assert fills[..m] + [fills[m]] == fills;
  }

  lemma WordsText(a: string, f: Fill, b: string)
    ensures AtomsText([Name(a)] + f + [Name(b)]) == a + AtomsText(f) + b
  {
    AtomsTextAppend([Name(a)] + f, [Name(b)]);
    AtomsTextAppend([Name(a)], f);
    OneAtomText(Name(a));
    OneAtomText(Name(b));
  }

  /** The text of the filled atoms is that of the cells. */
  lemma {:induction false} FilledText(t: Items, fills: seq<Fill>)
    requires Matches(AllCells(t), fills)
    ensures AtomsText(Filled(t, fills)) == CellsText(AllCells(t), fills)
    decreases |t|, 0
  {
    hide AtomText, CellsText;
    if t == [] {
      NoCells();
      assert fills == [];
    } else {
      hide Matches;
      var front, item := t[..|t| - 1], t[|t| - 1];
      var cells, m := AllCells(front), |fills| - 1;
      hide Chars;
      match item {
        case Is(a) =>
          CharsText(cells, AtomText(a), fills);
          FilledText(front, fills);
          AtomsTextAppend(Filled(front, fills), [a]);
          OneAtomText(a);
        case Split =>
          SplitMatches(cells, fills);
          FilledText(front, fills[..m]);
          SplitText(fills[m]);
          AtomsTextAppend(Filled(front, fills[..m]),
            if fills[m] == [] then [Name("elif")] else [Name("el")] + fills[m] + [Name("if")]);
        case LineEnd => PlaceFilled(front, LineCell, fills);
        case Layout => PlaceFilled(front, LayoutCell, fills);
        case Between => PlaceFilled(front, BetweenCell, fills);
      }
    }
  }

  lemma {:induction false} PlaceFilled(t: Items, place: Cell, fills: seq<Fill>)
    requires Matches(AllCells(t) + [place], fills) && !place.Char?
    ensures fills != []
    ensures AtomsText(Filled(t, fills[..|fills| - 1]) + fills[|fills| - 1])
      == CellsText(AllCells(t) + [place], fills)
    decreases |t|, 1
  {
    hide Matches, CellsText, AtomsText, Filled, AllCells;
    var cells, m := AllCells(t), |fills| - 1;
    PlaceMatches(cells, place, fills);
    FilledText(t, fills[..m]);
    PlaceText(cells, place, fills[..m], fills[m]);
    assert fills[..m] + [fills[m]] == fills;
    AtomsTextAppend(Filled(t, fills[..m]), fills[m]);
  }

  lemma SplitText(f: Fill)
    ensures AtomsText(if f == [] then [Name("elif")] else [Name("el")] + f + [Name("if")]) == "el" + AtomsText(f) + "if"
  {
    if f == [] { OneAtomText(Name("elif")); } else { WordsText("el", f, "if"); }
  }

  lemma PlaceMatches(cells: seq<Cell>, place: Cell, fills: seq<Fill>)
    requires Matches(cells + [place], fills) && !place.Char?
    ensures fills != [] && Matches(cells, fills[..|fills| - 1]) && FillFits(place, fills[|fills| - 1])
  {
    assert (cells + [place])[..|cells|] == cells;
  }
  // ----- what may stand together -----

  /** Whatever may follow the last atom of the tree may follow the atoms. */
  ghost predicate Joins(t: Items, atoms: seq<Atom>)
  {
    && (atoms != [] ==> !atoms[|atoms| - 1].Note?)
    && forall b | Fits(t, b) :: atoms != [] ==> Meets(atoms[|atoms| - 1], b)
  }

  lemma LayoutFollows(a: Atom, b: Atom)
    requires !a.Note? && (b.Gap? || b.Note?)
    ensures Meets(a, b)
  {
  }

  lemma FitAppend(cc: CharClass, a: seq<Atom>, b: seq<Atom>)
    requires Fit(cc, a) && Fit(cc, b) && (a != [] && b != [] ==> Meets(a[|a| - 1], b[0]))
    ensures Fit(cc, a + b)
  {
    hide AtomOk, Meets;
    var all := a + b;
    forall i | 0 <= i < |all| - 1 ensures Meets(all[i], all[i + 1]) {
      if i + 1 < |a| { assert Meets(a[i], a[i + 1]); }
      else if i >= |a| { assert Meets(b[i - |a|], b[i - |a| + 1]); }
    }
  }

  lemma LayoutFits(cc: CharClass, f: Fill)
    requires LayoutFill(f)
    ensures Fit(cc, f)
  {
    forall i | 0 <= i < |f| - 1 ensures Meets(f[i], f[i + 1]) {
      if f[i].Gap? { assert Meets(f[i], f[i + 1]); }
    }
  }

  /** Layout may follow any atom, and any atom may follow layout. */
  lemma AppendLayout(cc: CharClass, atoms: seq<Atom>, f: Fill)
    requires Fit(cc, atoms) && LayoutFill(f) && (atoms != [] ==> !atoms[|atoms| - 1].Note?)
    ensures Fit(cc, atoms + f)
    ensures atoms + f != [] ==> !(atoms + f)[|atoms + f| - 1].Note?
    ensures f != [] ==> (atoms + f)[|atoms + f| - 1].Gap?
  {
    hide AtomOk, Meets;
    LayoutFits(cc, f);
    if atoms != [] && f != [] { LayoutFollows(atoms[|atoms| - 1], f[0]); }
    FitAppend(cc, atoms, f);
  }

  lemma GapMeetsAll()
    ensures forall c, b :: Meets(Gap(c), b)
  {
  }

  lemma NamesMeetAlike(a: string, b: string)
    ensures forall x :: Meets(Name(a), x) <==> Meets(Name(b), x)
    ensures forall x :: Meets(x, Name(a)) <==> Meets(x, Name(b))
  {
  }

  lemma OneFits(cc: CharClass, a: Atom)
    requires AtomOk(cc, a)
    ensures Fit(cc, [a])
  {
  }

  lemma ElifWords(cc: CharClass)
    requires cc.Standard()
    ensures AtomOk(cc, Name("elif")) && AtomOk(cc, Name("el")) && AtomOk(cc, Name("if"))
  {
    AsciiWord(cc, "elif");
    AsciiWord(cc, "el");
    AsciiWord(cc, "if");
  }

  lemma SplitFits(cc: CharClass, f: Fill)
    requires cc.Standard() && LayoutFill(f)
    ensures var words := if f == [] then [Name("elif")] else [Name("el")] + f + [Name("if")];
      Fit(cc, words) && words != [] && words[0].Name? && words[|words| - 1].Name?
  {
    hide AtomOk, Meets;
    ElifWords(cc);
    OneFits(cc, Name("elif"));
    if f != [] {
      OneFits(cc, Name("el"));
      OneFits(cc, Name("if"));
      AppendLayout(cc, [Name("el")], f);
      GapMeetsAll();
      FitAppend(cc, [Name("el")] + f, [Name("if")]);
    }
  }

  lemma JoinsAtom(cc: CharClass, t: Items, atoms: seq<Atom>, a: Atom)
    requires Fit(cc, atoms) && Joins(t, atoms) && AtomOk(cc, a) && !a.Note? && Fits(t, a)
    ensures Fit(cc, atoms + [a]) && Joins(t + [Is(a)], atoms + [a])
  {
    hide AtomOk, Meets;
    OneFits(cc, a);
    FitAppend(cc, atoms, [a]);
    assert Last(t + [Is(a)]) == Some(a);
  }

  lemma JoinsLayout(cc: CharClass, t: Items, atoms: seq<Atom>, f: Fill)
    requires Fit(cc, atoms) && Joins(t, atoms) && LayoutFill(f)
    ensures Fit(cc, atoms + f) && Joins(t + [Layout], atoms + f)
  {
    hide AtomOk, Meets, LayoutFill;
    GapMeetsAll();
    AppendLayout(cc, atoms, f);
    assert (t + [Layout])[..|t|] == t && Last(t + [Layout]) == Last(t);
    assert f == [] ==> atoms + f == atoms;
    assert forall b :: Fits(t + [Layout], b) <==> Fits(t, b);
  }

  lemma JoinsLine(cc: CharClass, t: Items, atoms: seq<Atom>, f: Fill)
    requires Fit(cc, atoms) && Joins(t, atoms) && LineFill(f)
    ensures Fit(cc, atoms + f) && Joins(t + [LineEnd], atoms + f)
  {
    hide AtomOk, Meets, LayoutFill;
    GapMeetsAll();
    AppendLayout(cc, atoms, f);
    assert Last(t + [LineEnd]) == Some(Gap('\n'));
  }

  lemma JoinsBetween(cc: CharClass, t: Items, atoms: seq<Atom>, f: Fill)
    requires Fit(cc, atoms) && Joins(t, atoms) && BetweenFill(f) && Fits(t, Punct(Op.Comma))
    ensures Fit(cc, atoms + f) && Joins(t + [Between], atoms + f)
  {
    hide AtomOk, Meets, BetweenFill;
    GapMeetsAll();
    BetweenFits(cc, atoms, f);
  }

  lemma JoinsSplit(cc: CharClass, t: Items, atoms: seq<Atom>, f: Fill)
    requires cc.Standard() && Fit(cc, atoms) && Joins(t, atoms) && LayoutFill(f) && Fits(t, Name("elif"))
    ensures var words := if f == [] then [Name("elif")] else [Name("el")] + f + [Name("if")];
      Fit(cc, atoms + words) && Joins(t + [Split], atoms + words)
  {
    hide AtomOk, Meets, LayoutFill;
    SplitFits(cc, f);
    var words := if f == [] then [Name("elif")] else [Name("el")] + f + [Name("if")];
    NamesMeetAlike("elif", words[0].text);
    NamesMeetAlike("elif", words[|words| - 1].text);
    FitAppend(cc, atoms, words);
    assert Last(t + [Split]) == Some(Name("elif"));
    assert (atoms + words)[|atoms + words| - 1] == words[|words| - 1];
  }

  /** The filled atoms of a tree that reads may stand together. */
  lemma {:induction false} FilledFits(cc: CharClass, t: Items, fills: seq<Fill>)
    requires cc.Standard() && Reads(cc, t) && Matches(AllCells(t), fills)
    ensures Fit(cc, Filled(t, fills)) && Joins(t, Filled(t, fills))
    decreases |t|
  {
    if t == [] {
      NothingJoins(cc);
    } else {
      hide Matches, Fit, Joins, Fits, LayoutFill, BetweenFill, LineFill, AtomOk, AtomText, Chars, CellsText, Last;
      var front, item := t[..|t| - 1], t[|t| - 1];
      var cells, m := AllCells(front), |fills| - 1;
      assert t == front + [item];
      if item.Is? {
        CharsText(cells, AtomText(item.atom), fills);
        FilledFits(cc, front, fills);
        JoinsAtom(cc, front, Filled(front, fills), item.atom);
      } else if item.Split? {
        SplitMatches(cells, fills);
        FilledFits(cc, front, fills[..m]);
        JoinsSplit(cc, front, Filled(front, fills[..m]), fills[m]);
      } else {
        var place := if item.Between? then BetweenCell else if item.Layout? then LayoutCell else LineCell;
        PlaceMatches(cells, place, fills);
        hide AllCells, Reads;
        FilledFits(cc, front, fills[..m]);
        if item.Between? { JoinsBetween(cc, front, Filled(front, fills[..m]), fills[m]); }
        else if item.Layout? { JoinsLayout(cc, front, Filled(front, fills[..m]), fills[m]); }
        else { JoinsLine(cc, front, Filled(front, fills[..m]), fills[m]); }
      }
    }
  }

  lemma NothingJoins(cc: CharClass)
    ensures Fit(cc, []) && Joins([], [])
  {
  }

  lemma BetweenFits(cc: CharClass, atoms: seq<Atom>, f: Fill)
    requires Fit(cc, atoms) && BetweenFill(f) && (atoms != [] ==> !atoms[|atoms| - 1].Note?)
    requires atoms != [] ==> Meets(atoms[|atoms| - 1], Punct(Op.Comma))
    ensures Fit(cc, atoms + f) && atoms + f != [] && (atoms + f)[|atoms + f| - 1].Gap?
  {
    if f == [Punct(Op.Comma), Gap(' ')] {
      assert Fit(cc, f);
      FitAppend(cc, atoms, f);
    } else {
      AppendLayout(cc, atoms, f);
    }
  }

  // ----- the printed text -----

  /** The output without the comments after the last node. */
  function BeforeRest(ps: seq<PS.Piece>): seq<PS.Piece>
  {
    if ps != [] && ps[|ps| - 1].Rest? then BeforeRest(ps[..|ps| - 1]) else ps
  }

  /** The atoms of the comments after the last node. */
  function RestAtoms(ps: seq<PS.Piece>): Fill
  {
    if ps != [] && ps[|ps| - 1].Rest? then
      var last := ps[|ps| - 1];
      RestAtoms(ps[..|ps| - 1]) + ([Note(last.note.text)] + Breaks(last.indent) + Blanks(last.indent * PS.INDENT_LEN))
    else []
  }

  lemma {:induction false} NoRestInside(ps: seq<PS.Piece>, i: nat)
    requires PS.Placed(ps) && i < |ps| && !ps[|ps| - 1].Rest?
    ensures !ps[i].Rest?
    decreases |ps| - i
  {
    if i + 1 < |ps| {
      NoRestInside(ps, i + 1);
      assert PS.PlacedAt(ps, i + 1);
    }
  }

  lemma PlacedFront(ps: seq<PS.Piece>)
    requires PS.Placed(ps) && ps != []
    ensures PS.Placed(ps[..|ps| - 1])
  {
    var front := ps[..|ps| - 1];
    forall i | 0 <= i < |front| ensures PS.PlacedAt(front, i) {
      assert PS.PlacedAt(ps, i);
    }
  }

  lemma RestText(note: P.Comment, indent: nat)
    ensures AtomsText([Note(note.text)] + Breaks(indent) + Blanks(indent * PS.INDENT_LEN))
      == PS.PieceText(PS.Rest(note, indent))
  {
    hide Breaks, Blanks, PS.NewlineText, PS.Spaces;
    BreaksText(indent);
    BlanksText(indent * PS.INDENT_LEN);
    OneAtomText(Note(note.text));
    AtomsTextAppend([Note(note.text)], Breaks(indent));
    AtomsTextAppend([Note(note.text)] + Breaks(indent), Blanks(indent * PS.INDENT_LEN));
  }

  lemma RestIsLayout(note: P.Comment, indent: nat)
    requires CommentText(note.text)
    ensures LayoutFill([Note(note.text)] + Breaks(indent) + Blanks(indent * PS.INDENT_LEN))
  {
  }

  lemma RenderBeforeRest(cc: CharClass, t: Items, ps: seq<PS.Piece>)
    requires cc.Standard() && Reads(cc, t) && PS.Placed(ps) && AllCells(t) == Cells(PS.Shape(ps))
    requires (ps != [] ==> !ps[|ps| - 1].Rest?) && forall note | note in PS.NotesOf(ps) :: CommentText(note.text)
    ensures var atoms := Filled(t, FillsOf(ps));
      PS.Render(ps) == AtomsText(atoms) && Fit(cc, atoms) && (atoms != [] ==> !atoms[|atoms| - 1].Note?)
  {
    forall i | 0 <= i < |ps| ensures !ps[i].Rest? { NoRestInside(ps, i); }
    hide Reads, AtomsText, Fit, Matches, AllCells, Cells, Filled, FillsOf, PS.Placed, PS.Render, PS.Shape, CellsText;
    hide CommentText, PS.NotesOf, Fits;
    ShapeCells(ps);
    RenderIsCells(ps);
    FilledText(t, FillsOf(ps));
    FilledFits(cc, t, FillsOf(ps));
  }

  lemma RestShape(ps: seq<PS.Piece>)
    requires ps != [] && ps[|ps| - 1].Rest?
    ensures PS.Shape(ps) == PS.Shape(ps[..|ps| - 1])
    ensures PS.NotesOf(ps) == PS.NotesOf(ps[..|ps| - 1]) + [ps[|ps| - 1].note]
  {
    hide PS.Shape, PS.NotesOf;
    var front, last := ps[..|ps| - 1], ps[|ps| - 1];
    assert ps == front + [last];
    PS.ShapeAppend(front, last);
    assert PS.Shape(front) + [] == PS.Shape(front);
  }

  lemma OneRestMore(cc: CharClass, atoms: seq<Atom>, ps: seq<PS.Piece>)
    requires ps != [] && ps[|ps| - 1].Rest? && CommentText(ps[|ps| - 1].note.text)
    requires Fit(cc, atoms) && PS.Render(ps[..|ps| - 1]) == AtomsText(atoms)
    requires atoms != [] ==> !atoms[|atoms| - 1].Note?
    ensures var last := ps[|ps| - 1];
      var all := atoms + ([Note(last.note.text)] + Breaks(last.indent) + Blanks(last.indent * PS.INDENT_LEN));
      PS.Render(ps) == AtomsText(all) && Fit(cc, all) && (all != [] ==> !all[|all| - 1].Note?)
  {
    hide AtomsText, Fit, PS.PieceText, Breaks, Blanks, CommentText, LayoutFill;
    var last := ps[|ps| - 1];
    var f := [Note(last.note.text)] + Breaks(last.indent) + Blanks(last.indent * PS.INDENT_LEN);
    RestText(last.note, last.indent);
    RestIsLayout(last.note, last.indent);
    AtomsTextAppend(atoms, f);
    AppendLayout(cc, atoms, f);
  }

  /** The text of the output, with the atoms of a tree that has its shape. */
  lemma {:induction false} RenderIsAtoms(cc: CharClass, t: Items, ps: seq<PS.Piece>)
    requires cc.Standard() && Reads(cc, t) && PS.Placed(ps) && AllCells(t) == Cells(PS.Shape(ps))
    requires forall note | note in PS.NotesOf(ps) :: CommentText(note.text)
    ensures var atoms := Filled(t, FillsOf(BeforeRest(ps))) + RestAtoms(ps);
      PS.Render(ps) == AtomsText(atoms) && Fit(cc, atoms) && (atoms != [] ==> !atoms[|atoms| - 1].Note?)
    decreases |ps|
  {
    hide Reads, AtomsText, Fit, PS.Placed, AllCells, Cells, Filled, FillsOf, CommentText, PS.Render;
    hide PS.Shape, PS.NotesOf, Breaks, Blanks;
    if ps != [] && ps[|ps| - 1].Rest? {
      var n, last := |ps| - 1, ps[|ps| - 1];
      PlacedFront(ps);
      RestShape(ps);
      RenderIsAtoms(cc, t, ps[..n]);
      var atoms := Filled(t, FillsOf(BeforeRest(ps[..n]))) + RestAtoms(ps[..n]);
      OneRestMore(cc, atoms, ps);
      assert atoms + ([Note(last.note.text)] + Breaks(last.indent) + Blanks(last.indent * PS.INDENT_LEN))
        == Filled(t, FillsOf(BeforeRest(ps))) + RestAtoms(ps);
    } else {
      RenderBeforeRest(cc, t, ps);
      assert Filled(t, FillsOf(ps)) + [] == Filled(t, FillsOf(ps));
    }
  }

  /** Printed text is lexed as the tokens of its tree and of its layout. */
  lemma RenderLexes(cc: CharClass, t: Items, ps: seq<PS.Piece>)
    requires cc.Standard() && Reads(cc, t) && PS.Placed(ps) && AllCells(t) == Cells(PS.Shape(ps))
    requires forall note | note in PS.NotesOf(ps) :: CommentText(note.text)
    ensures Tokens(cc, PS.Render(ps)) == AtomsTokens(cc, Filled(t, FillsOf(BeforeRest(ps))) + RestAtoms(ps))
  {
    hide Reads, Fit, Filled, PS.Placed, AllCells, AtomsText;
    RenderIsAtoms(cc, t, ps);
    AtomsRead(cc, Filled(t, FillsOf(BeforeRest(ps))) + RestAtoms(ps));
  }
}
