/** The conditions the pretty printer meets leave only one output, kclvm/ast_pretty/src. */
module PrintUnique {
  import opened PrettyAst
  import opened PrintSpec
  import opened Wrappers

  /** Output of the shape `s` with the given comments, laid out by the rules and with every comment in place. */
  ghost predicate Output(ps: seq<Piece>, s: S, comments: seq<Comment>)
  {
    && Shape(ps) == s && NotesOf(ps) == comments
    && LayoutOf(ps, comments) == Layout(0, []) && Placed(ps)
  }

  lemma FrontStep(ps: seq<Piece>, i: nat, comments: seq<Comment>)
    requires i < |ps|
    ensures Shape(ps[..i + 1]) == Shape(ps[..i]) + Erase(ps[i])
    ensures NotesOf(ps[..i + 1]) == NotesOf(ps[..i]) + PieceNotes(ps[i])
    ensures LayoutOf(ps[..i + 1], comments)
      == Advance(LayoutOf(ps[..i], comments), ps[i], Due(comments, |NotesOf(ps[..i])|))
  {
    hide Shape, NotesOf, LayoutOf, Erase, PieceNotes, Advance;
    assert ps[..i + 1] == ps[..i] + [ps[i]];
    ShapeAppend(ps[..i], ps[i]);
    LayoutAppend(ps[..i], ps[i], comments);
  }

  /** Fronts of an output have fronts of its shape and comments, and a layout of their own. */
  lemma {:induction false} Fronts(ps: seq<Piece>, i: nat, comments: seq<Comment>)
    requires i <= |ps| && LayoutOf(ps, comments).Layout?
    ensures Shape(ps[..i]) <= Shape(ps) && NotesOf(ps[..i]) <= NotesOf(ps) && LayoutOf(ps[..i], comments).Layout?
    decreases |ps| - i
  {
    if i == |ps| {
      assert ps[..i] == ps;
    } else {
      hide Shape, NotesOf, LayoutOf, Erase, PieceNotes;
      FrontStep(ps, i, comments);
      Fronts(ps, i + 1, comments);
    }
  }

  /** After a trailing comment there are only trailing comments, which add nothing to the shape. */
  lemma {:induction false} RestStaysRest(ps: seq<Piece>, i: nat, k: nat, comments: seq<Comment>)
    requires Placed(ps) && i < k <= |ps| && ps[i].Rest?
    ensures ps[k - 1].Rest? && Shape(ps[..k]) == Shape(ps[..i])
    decreases k
  {
    hide Shape, NotesOf, LayoutOf, Placed;
    FrontStep(ps, k - 1, comments);
    if k > i + 1 {
      RestStaysRest(ps, i, k - 1, comments);
      RestFollowsRest(ps, k - 1);
    }
    assert Shape(ps[..k]) == Shape(ps[..k - 1]) + [];
  }

  lemma RestFollowsRest(ps: seq<Piece>, i: nat)
    requires Placed(ps) && 0 < i < |ps| && ps[i - 1].Rest?
    ensures ps[i].Rest?
  {
    assert PlacedAt(ps, i);
  }

  /** Where the `n`-th comment is printed. */
  lemma {:induction false} PrintedAt(ps: seq<Piece>, i: nat, n: nat, comments: seq<Comment>) returns (j: nat)
    requires i <= |ps| && |NotesOf(ps[..i])| <= n < |NotesOf(ps)|
    ensures i <= j < |ps| && NotesOf(ps)[n] in PieceNotes(ps[j])
    decreases |ps| - i
  {
    assert ps[..|ps|] == ps;
    FrontStep(ps, i, comments);
    var here := NotesOf(ps[..i + 1]);
    if n < |here| {
      NotesFront(ps, i + 1);
      assert here[n] == PieceNotes(ps[i])[n - |NotesOf(ps[..i])|];
      j := i;
    } else {
      j := PrintedAt(ps, i + 1, n, comments);
    }
  }

  lemma {:induction false} NotesFront(ps: seq<Piece>, i: nat)
    requires i <= |ps|
    ensures NotesOf(ps[..i]) <= NotesOf(ps)
    decreases |ps| - i
  {
    if i == |ps| {
      assert ps[..i] == ps;
    } else {
      FrontStep(ps, i, []);
      NotesFront(ps, i + 1);
    }
  }

  /** A node does not print fewer comments in one output than in another: a comment left over would come
      later, although the node starts on its line or after it. */
  lemma NoFewerNotes(p: seq<Piece>, q: seq<Piece>, i: nat, comments: seq<Comment>)
    requires NotesOf(p) == NotesOf(q) == comments && Placed(p) && Placed(q) && i < |p| && i < |q| && p[..i] == q[..i]
    requires p[i].Visit? && q[i].Visit? && p[i].at == q[i].at
    ensures |p[i].notes| >= |q[i].notes|
  {
    hide Shape, NotesOf, LayoutOf, Placed, PieceNotes;
    if |p[i].notes| < |q[i].notes| {
      var n := NextNote(p, q, i, comments);
      var j := PrintedAt(p, i + 1, n, comments);
      PlacedMeans(q, i, comments[n]);
      PlacedMeans(p, j, comments[n]);
    }
  }

  /** The first comment that the second output prints at the node and the first does not. */
  lemma NextNote(p: seq<Piece>, q: seq<Piece>, i: nat, comments: seq<Comment>) returns (n: nat)
    requires NotesOf(p) == NotesOf(q) == comments && i < |p| && i < |q| && p[..i] == q[..i]
    requires p[i].Visit? && q[i].Visit? && |p[i].notes| < |q[i].notes|
    ensures |NotesOf(p[..i + 1])| <= n < |comments| && comments[n] in PieceNotes(q[i])
  {
    hide Shape, NotesOf, LayoutOf, Placed;
    FrontStep(p, i, comments);
    FrontStep(q, i, comments);
    NotesFront(q, i + 1);
    n := |NotesOf(p[..i + 1])|;
    assert comments[n] == q[i].notes[|p[i].notes|];
  }

  lemma PlacedMeans(ps: seq<Piece>, i: nat, note: Comment)
    requires Placed(ps) && i < |ps| && note in PieceNotes(ps[i])
    ensures forall k | 0 <= k < i && ps[k].Visit? :: ps[k].at.Line() < note.line
    ensures ps[i].Visit? ==> note.line <= ps[i].at.Line()
  {
    assert PlacedAt(ps, i);
    assert AfterNodes(ps, i, note);
  }

  lemma SameNotes(p: seq<Piece>, q: seq<Piece>, i: nat, comments: seq<Comment>)
    requires NotesOf(p) == NotesOf(q) == comments && Placed(p) && Placed(q) && i < |p| && i < |q| && p[..i] == q[..i]
    requires p[i].Visit? && q[i].Visit? && p[i].at == q[i].at
    ensures p[i].notes == q[i].notes
  {
    hide NotesOf, Placed;
    NoFewerNotes(p, q, i, comments);
    NoFewerNotes(q, p, i, comments);
    NotesAreSlice(p, i, comments);
    NotesAreSlice(q, i, comments);
  }

  lemma NotesAreSlice(ps: seq<Piece>, i: nat, comments: seq<Comment>)
    requires NotesOf(ps) == comments && i < |ps| && ps[i].Visit?
    ensures var n := |NotesOf(ps[..i])|;
      n + |ps[i].notes| <= |comments| && ps[i].notes == comments[n..n + |ps[i].notes|]
  {
    hide NotesOf, Shape, LayoutOf;
    FrontStep(ps, i, comments);
    NotesFront(ps, i + 1);
  }

  lemma KindsAgree(p: seq<Piece>, q: seq<Piece>, i: nat, s: S, comments: seq<Comment>)
    requires Output(p, s, comments) && Output(q, s, comments) && i < |p| && i < |q| && p[..i] == q[..i]
    ensures p[i].Rest? ==> q[i].Rest?
    ensures !p[i].Rest? && !q[i].Rest? ==> Erase(p[i]) == Erase(q[i])
  {
    hide Shape, NotesOf, LayoutOf, Placed;
    FrontStep(p, i, comments);
    FrontStep(q, i, comments);
    Fronts(p, i + 1, comments);
    Fronts(q, i + 1, comments);
    assert p[..|p|] == p;
    if p[i].Rest? && !q[i].Rest? { RestStaysRest(p, i, |p|, comments); }
    var n := |Shape(p[..i])|;
    if !p[i].Rest? && !q[i].Rest? {
      assert Erase(p[i])[0] == s[n] && Erase(q[i])[0] == s[n];
    }
  }

  /** Two pieces of one kind that fit one layout are the same, up to the comments at a node. */
  lemma WidthsAgree(l: Layout, x: Piece, y: Piece, due: Option<nat>)
    requires Advance(l, x, due).Layout? && Advance(l, y, due).Layout? && Erase(x) == Erase(y) && !x.Rest?
    ensures if x.Visit? then y.Visit? && x.at == y.at && x.indent == y.indent else x == y
  {
    assert Erase(x)[0] == Erase(y)[0];
  }

  lemma {:induction false} SameFronts(p: seq<Piece>, q: seq<Piece>, i: nat, s: S, comments: seq<Comment>)
    requires Output(p, s, comments) && Output(q, s, comments) && i <= |p| && i <= |q|
    ensures p[..i] == q[..i]
    decreases i
  {
    if i > 0 {
      var k := i - 1;
      SameFronts(p, q, k, s, comments);
      SamePiece(p, q, k, s, comments);
      assert p[..i] == p[..k] + [p[k]] && q[..i] == q[..k] + [q[k]];
    }
  }

  lemma SamePiece(p: seq<Piece>, q: seq<Piece>, i: nat, s: S, comments: seq<Comment>)
    requires Output(p, s, comments) && Output(q, s, comments) && i < |p| && i < |q| && p[..i] == q[..i]
    ensures p[i] == q[i]
  {
    hide Shape, NotesOf, LayoutOf, Placed, Erase, Advance;
    KindsAgree(p, q, i, s, comments);
    KindsAgree(q, p, i, s, comments);
    FrontStep(p, i, comments);
    FrontStep(q, i, comments);
    Fronts(p, i + 1, comments);
    Fronts(q, i + 1, comments);
    var l, due := LayoutOf(p[..i], comments), Due(comments, |NotesOf(p[..i])|);
    if p[i].Rest? {
      RestAgrees(l, p[i], q[i], due);
      var n := |NotesOf(p[..i])|;
      assert p[i].note == comments[n] && q[i].note == comments[n];
    } else {
      WidthsAgree(l, p[i], q[i], due);
      if p[i].Visit? { SameNotes(p, q, i, comments); }
    }
  }

  lemma RestAgrees(l: Layout, x: Piece, y: Piece, due: Option<nat>)
    requires Advance(l, x, due).Layout? && Advance(l, y, due).Layout? && x.Rest? && y.Rest?
    ensures x.indent == y.indent
  {
  }

  lemma NotShorter(p: seq<Piece>, q: seq<Piece>, s: S, comments: seq<Comment>)
    requires Output(p, s, comments) && Output(q, s, comments)
    ensures |p| >= |q|
  {
    hide Shape, NotesOf, LayoutOf, Placed;
    if |p| < |q| {
      SameFronts(p, q, |p|, s, comments);
      assert p[..|p|] == p;
      FrontStep(q, |p|, comments);
      Fronts(q, |p| + 1, comments);
    }
  }

  /** There is one output of a shape with given comments, so what the printer prints is a function of the
      module: its code, the lines its nodes start on, and its comments. */
  lemma OutputIsUnique(p: seq<Piece>, q: seq<Piece>, s: S, comments: seq<Comment>)
    requires Output(p, s, comments) && Output(q, s, comments)
    ensures p == q && Render(p) == Render(q)
  {
    NotShorter(p, q, s, comments);
    NotShorter(q, p, s, comments);
    SameFronts(p, q, |p|, s, comments);
    assert p[..|p|] == p && q[..|q|] == q;
  }
}
