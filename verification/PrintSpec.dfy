/** What the pretty printer must write, apart from comments and from the layout of lists and
    configurations, which comments influence. kclvm/ast_pretty/src. */
module PrintSpec {
  import opened PrettyAst
  import opened Wrappers
  import Strings
  import TypePrinter

  /** A node the printer reaches: a statement, or another node on the given line. */
  datatype Reached = AtStmt(stmt: Node<Stmt>) | AtNode(line_: nat) {
    function Line(): nat { match this case AtStmt(stmt) => stmt.line case AtNode(line) => line }
  }

  /** One write of the printer, with the indentation it used. `Visit` stands for reaching a node: the
      comments printed there. `Open`, `Between` and `Close` lay out the items of a list or configuration;
      `Open` keeps what the choice of one line or several was made from: the lines of the items, whether
      several lines are forced, and the line of the first comment still queued. */
  datatype Piece =
    | Tok(text: string)
    | Break
    | Newline(indent: nat)
    | Fill(indent: nat)
    | Enter
    | Leave
    | Visit(at: Reached, notes: seq<Comment>, indent: nat)
    | Open(oneLine: bool, indent: nat, lines: seq<nat>, forced: bool, due: Option<nat>)
    | Between(oneLine: bool, indent: nat)
    | Close(oneLine: bool, indent: nat)
    /** A comment after the last node. */
    | Rest(note: Comment, indent: nat)

  // ----- the text of the pieces -----

  const INDENT_LEN := 4

  function Spaces(n: nat): string { seq(n, _ => ' ') }

  function NewlineText(indent: nat): string { "\n" + Spaces(indent * INDENT_LEN) }

  function NotesText(notes: seq<Comment>, indent: nat): string
  {
    if notes == [] then ""
    else NotesText(notes[..|notes| - 1], indent) + notes[|notes| - 1].text + NewlineText(indent)
  }

  function PieceText(piece: Piece): string
  {
    match piece
    case Tok(text) => text
    case Break => "\n"
    case Newline(indent) => NewlineText(indent)
    case Fill(indent) => Spaces(indent * INDENT_LEN)
    case Enter => ""
    case Leave => ""
    case Visit(_, notes, indent) => NotesText(notes, indent)
    case Open(oneLine, indent, _, _, _) => if oneLine then "" else NewlineText(indent)
    case Between(oneLine, indent) => if oneLine then ", " else NewlineText(indent)
    case Close(oneLine, indent) => if oneLine then "" else NewlineText(indent)
    case Rest(note, indent) => note.text + NewlineText(indent) + Spaces(indent * INDENT_LEN)
  }

  function Render(pieces: seq<Piece>): string
  {
    if pieces == [] then "" else Render(pieces[..|pieces| - 1]) + PieceText(pieces[|pieces| - 1])
  }

  // ----- shape, comments, and where comments stand -----

  function Erase(piece: Piece): seq<Piece>
  {
    match piece
    case Newline(_) => [Newline(0)]
    case Fill(_) => [Fill(0)]
    case Visit(at, _, _) => [Visit(at, [], 0)]
    case Open(_, _, lines, forced, _) => [Open(true, 0, lines, forced, None)]
    case Between(_, _) => [Between(true, 0)]
    case Close(_, _) => [Close(true, 0)]
    case Rest(_, _) => []
    case _ => [piece]
  }

  /** The pieces without comments, widths, and the choice of one line or several. */
  function Shape(pieces: seq<Piece>): seq<Piece>
  {
    if pieces == [] then [] else Shape(pieces[..|pieces| - 1]) + Erase(pieces[|pieces| - 1])
  }

  function PieceNotes(piece: Piece): seq<Comment>
  {
    match piece case Visit(_, notes, _) => notes case Rest(note, _) => [note] case _ => []
  }

  /** The comments printed. */
  function NotesOf(pieces: seq<Piece>): seq<Comment>
  {
    if pieces == [] then [] else NotesOf(pieces[..|pieces| - 1]) + PieceNotes(pieces[|pieces| - 1])
  }

  ghost predicate Sorted(comments: seq<Comment>)
  {
    forall i, j | 0 <= i < j < |comments| :: comments[i].line <= comments[j].line
  }

  /** Every node reached before the `i`-th piece starts before the comment. */
  ghost predicate AfterNodes(pieces: seq<Piece>, i: nat, note: Comment)
    requires i <= |pieces|
  {
    forall k | 0 <= k < i && pieces[k].Visit? :: pieces[k].at.Line() < note.line
  }

  ghost predicate PlacedAt(pieces: seq<Piece>, i: nat)
    requires i < |pieces|
  {
    && (forall note | note in PieceNotes(pieces[i]) :: AfterNodes(pieces, i, note))
    && (pieces[i].Visit? ==> forall note | note in pieces[i].notes :: note.line <= pieces[i].at.Line())
    && (i > 0 && pieces[i - 1].Rest? ==> pieces[i].Rest?)
  }

  /** Every comment stands directly before the first node that starts on its line or later, or after
      all nodes when there is none. */
  ghost predicate Placed(pieces: seq<Piece>)
  {
    forall i | 0 <= i < |pieces| :: PlacedAt(pieces, i)
  }

  // ----- layout -----

  /** The indentation reached, and which of the open lists and configurations are on one line. */
  datatype Layout = Layout(depth: int, opens: seq<bool>) | Misplaced

  /** Items are written on one line when they start on one line, not all of them have comments waiting,
      and nothing forces several lines. */
  predicate OneLine(lines: seq<nat>, forced: bool, due: Option<nat>)
  {
    && !forced
    && (forall i | 0 <= i < |lines| :: lines[i] == lines[0])
    && !(lines != [] && due.Some? && forall i | 0 <= i < |lines| :: due.value <= lines[i])
  }

  /** What a piece may be when the layout is `l` and the first queued comment is on line `due`: every width
      is the depth, every choice follows the rule, and separators and ends agree with their list. */
  function Advance(l: Layout, piece: Piece, due: Option<nat>): Layout
  {
    if l.Misplaced? then l
    else
      var n := |l.opens|;
      match piece
      case Tok(_) => l
      case Break => l
      case Newline(w) => if w == l.depth then l else Misplaced
      case Fill(w) => if w == l.depth then l else Misplaced
      case Visit(_, _, w) => if w == l.depth then l else Misplaced
      case Rest(_, w) => if w == l.depth then l else Misplaced
      case Enter => Layout(l.depth + 1, l.opens)
      case Leave => Layout(l.depth - 1, l.opens)
      case Open(oneLine, w, lines, forced, d) =>
        var depth := if oneLine then l.depth else l.depth + 1;
        if w == depth && d == due && oneLine == OneLine(lines, forced, due) then Layout(depth, l.opens + [oneLine])
        else Misplaced
      case Between(oneLine, w) =>
        if w == l.depth && n > 0 && l.opens[n - 1] == oneLine then l else Misplaced
      case Close(oneLine, w) =>
        var depth := if oneLine then l.depth else l.depth - 1;
        if w == depth && n > 0 && l.opens[n - 1] == oneLine then Layout(depth, l.opens[..n - 1]) else Misplaced
  }

  /** The line of the `n`-th comment. */
  function Due(comments: seq<Comment>, n: nat): Option<nat>
  {
    if n < |comments| then Some(comments[n].line) else None
  }

  /** The layout after the pieces, when `comments` are all comments there are. */
  function LayoutOf(pieces: seq<Piece>, comments: seq<Comment>): Layout
  {
    if pieces == [] then Layout(0, [])
    else
      var front := pieces[..|pieces| - 1];
      Advance(LayoutOf(front, comments), pieces[|pieces| - 1], Due(comments, |NotesOf(front)|))
  }

  lemma LayoutAppend(pieces: seq<Piece>, piece: Piece, comments: seq<Comment>)
    ensures LayoutOf(pieces + [piece], comments)
      == Advance(LayoutOf(pieces, comments), piece, Due(comments, |NotesOf(pieces)|))
  {
    assert (pieces + [piece])[..|pieces|] == pieces;
  }

  // ----- order of comments -----

  /** Nothing but nodes has been printed so far, and the rest is in order. */
  ghost predicate Orderly(pieces: seq<Piece>, last: nat, comments: seq<Comment>)
  {
    InOrder(pieces, last, comments) && (pieces != [] ==> !pieces[|pieces| - 1].Rest?)
  }

  /** Printed comments stand where they belong, nodes reached so far start no later than line `last`,
      and comments still queued start after it. */
  ghost predicate InOrder(pieces: seq<Piece>, last: nat, comments: seq<Comment>)
  {
    && Placed(pieces)
    && (forall k | 0 <= k < |pieces| && pieces[k].Visit? :: pieces[k].at.Line() <= last)
    && (forall c | c in comments :: last < c.line)
    && Sorted(comments)
  }

  lemma ShapeAppend(pieces: seq<Piece>, piece: Piece)
    ensures Shape(pieces + [piece]) == Shape(pieces) + Erase(piece)
    ensures NotesOf(pieces + [piece]) == NotesOf(pieces) + PieceNotes(piece)
  {
    assert (pieces + [piece])[..|pieces|] == pieces;
  }

  lemma PlacedAppend(pieces: seq<Piece>, piece: Piece)
    requires Placed(pieces)
    requires PlacedAt(pieces + [piece], |pieces|)
    ensures Placed(pieces + [piece])
  {
    forall i | 0 <= i < |pieces| + 1 ensures PlacedAt(pieces + [piece], i) {
      if i < |pieces| { assert PlacedAt(pieces, i); }
    }
  }

  lemma OtherKeepsOrder(pieces: seq<Piece>, last: nat, comments: seq<Comment>, piece: Piece)
    requires Orderly(pieces, last, comments) && PieceNotes(piece) == [] && !piece.Visit? && !piece.Rest?
    ensures Orderly(pieces + [piece], last, comments)
  {
    PlacedAppend(pieces, piece);
  }

  /** Reaching a node on a line after `last` prints the comments up to that line. */
  lemma VisitKeepsOrder(
      pieces: seq<Piece>, last: nat, notes: seq<Comment>, comments: seq<Comment>, at: Reached, indent: nat)
    requires Orderly(pieces, last, notes + comments)
    requires forall c | c in notes :: c.line <= at.Line()
    requires if last < at.Line() then comments != [] ==> at.Line() < comments[0].line else notes == []
    ensures Orderly(pieces + [Visit(at, notes, indent)], if last < at.Line() then at.Line() else last, comments)
  {
    var line := at.Line();
    var piece, all := Visit(at, notes, indent), notes + comments;
    forall c | c in comments
      ensures (if last < line then line else last) < c.line
    {
      var i :| 0 <= i < |comments| && comments[i] == c;
      assert all[|notes| + i] == c && all[|notes|] == comments[0];
    }
    forall i, j | 0 <= i < j < |comments|
      ensures comments[i].line <= comments[j].line
    {
      assert all[|notes| + i] == comments[i] && all[|notes| + j] == comments[j];
    }
    assert forall c | c in notes :: c in all;
    assert PlacedAt(pieces + [piece], |pieces|);
    PlacedAppend(pieces, piece);
  }

  /** A comment after the last node comes after every node. */
  lemma RestKeepsOrder(pieces: seq<Piece>, last: nat, comments: seq<Comment>, indent: nat)
    requires InOrder(pieces, last, comments) && comments != []
    ensures InOrder(pieces + [Rest(comments[0], indent)], last, comments[1..])
  {
    var piece := Rest(comments[0], indent);
    assert comments[0] in comments;
    assert PlacedAt(pieces + [piece], |pieces|);
    PlacedAppend(pieces, piece);
  }

  /** Reaching a node extends the shape by the node, and keeps the layout. */
  lemma VisitKeepsLayout(pieces: seq<Piece>, at: Reached, notes: seq<Comment>, l: Layout, all: seq<Comment>)
    requires l.Layout? && l.depth >= 0
    ensures var visited := pieces + [Visit(at, notes, l.depth)];
      && Shape(visited) == V(Shape(pieces), at) && NotesOf(visited) == NotesOf(pieces) + notes
      && (LayoutOf(pieces, all) == l ==> LayoutOf(visited, all) == l)
  {
    hide Shape, NotesOf, LayoutOf;
    ShapeAppend(pieces, Visit(at, notes, l.depth));
    LayoutAppend(pieces, Visit(at, notes, l.depth), all);
  }

  lemma InOrderIsPlaced(pieces: seq<Piece>, last: nat, comments: seq<Comment>)
    ensures InOrder(pieces, last, comments) ==> Placed(pieces)
  {
  }

  lemma NothingWritten(comments: seq<Comment>)
    ensures Shape([]) == [] && NotesOf([]) == [] && LayoutOf([], comments) == Layout(0, [])
    ensures Sorted(comments) && (forall c | c in comments :: c.line > 0) ==> Orderly([], 0, comments)
  {
  }

  // ----- shapes of the syntax tree: `a` is what has been written before -----

  type S = seq<Piece>

  function W(a: S, text: string): S { a + [Tok(text)] }
  function B(a: S): S { a + [Break] }
  function N(a: S): S { a + [Newline(0)] }
  function F(a: S): S { a + [Fill(0)] }
  function I(a: S): S { a + [Enter] }
  function D(a: S): S { a + [Leave] }
  function V(a: S, at: Reached): S { a + [Visit(at, [], 0)] }
  function O(a: S, lines: seq<nat>, forced: bool): S { a + [Open(true, 0, lines, forced, None)] }
  function C(a: S): S { a + [Close(true, 0)] }

  /** What stands between the elements of a sequence. */
  datatype Sep = Comma | Line | Item(oneLine: bool)

  function SepShape(a: S, sep: Sep): S
  {
    match sep case Comma => W(a, ", ") case Line => N(a) case Item(_) => a + [Between(true, 0)]
  }

  function Texts(names: seq<Part>): seq<string> { seq(|names|, i requires 0 <= i < |names| => names[i].text) }

  function Name(identifier: Identifier): string { Strings.Join(Texts(identifier.names), '.') }

  /** Debug forms joined with an opening brace between. */
  function Braced(names: seq<Part>): string
  {
    if names == [] then ""
    else
      var n := |names| - 1;
      (if n == 0 then "" else Braced(names[..n]) + ": {") + names[n].debug
  }

  function IdentifiersShape(a: S, xs: seq<Identifier>): S
  {
    if xs == [] then a
    else
      var n := |xs| - 1;
      W(if n == 0 then a else W(IdentifiersShape(a, xs[..n]), ", "), Name(xs[n]))
  }

  function ModuleShape(a: S, module_: Module): S
  {
    StmtsShape(if module_.doc != "" then N(W(a, module_.doc)) else a, module_.body)
  }

  function StmtsShape(a: S, stmts: seq<Node<Stmt>>): S
    decreases stmts
  {
    if stmts == [] then a
    else
      var n := |stmts| - 1;
      StmtNodeShape(StmtsShape(a, stmts[..n]), stmts[n])
  }

  function StmtNodeShape(a: S, stmt: Node<Stmt>): S
    decreases stmt
  {
    StmtShape(V(F(a), AtStmt(stmt)), stmt.node)
  }

  function StmtShape(a: S, stmt: Stmt): S
    decreases stmt
  {
    match stmt
    case TypeAlias(name, value) => B(W(W(W(W(W(a, "type"), " "), Name(name)), " = "), value))
    case ExprStmt(exprs) => B(ExprsShape(a, exprs, Comma))
    case Unification(target, value) => B(SchemaExprShape(W(W(a, Name(target)), ": "), value))
    case Assign(targets, ty, value) =>
      var b := B(ExprShape(TargetsShape(a, targets, ty), value));
      if value.node.Schema? then B(b) else b
    case AugAssign(target, op, value) =>
      B(ExprShape(W(W(W(W(a, Name(target)), " "), op.Symbol()), " "), value))
    case Assert(check) => B(CheckShape(W(a, "assert "), check))
    case If(ifStmt) => IfStmtShape(a, ifStmt)
    case Import(path, asname) =>
      var b := W(W(a, "import "), path);
      B(if asname.Some? then W(W(b, " as "), asname.value) else b)
    case Attr(attr) => SchemaAttrShape(a, attr)
    case SchemaDef(schema) => SchemaStmtShape(a, schema)
    case RuleDef(rule) => RuleStmtShape(a, rule)
  }

  /** The first target carries the type. */
  function TargetsShape(a: S, targets: seq<Identifier>, ty: Option<TypePrinter.Type>): S
    decreases targets
  {
    if targets == [] then a
    else
      var n := |targets| - 1;
      TargetShape(TargetsShape(a, targets[..n], ty), targets[n], if n == 0 then ty else None)
  }

  function TargetShape(a: S, target: Identifier, ty: Option<TypePrinter.Type>): S
  {
    var b := W(a, Name(target));
    W(if ty.Some? then W(W(b, ": "), TypePrinter.Print(ty.value)) else b, " = ")
  }

  function IfStmtShape(a: S, s: IfStmt): S
    decreases s
  {
    var b := D(StmtsShape(I(B(W(ExprShape(W(a, "if "), s.cond), ":"))), s.body));
    if s.orelse == [] then B(b)
    else if s.orelse[0].node.If? then IfStmtShape(W(F(b), "el"), s.orelse[0].node.ifStmt)
    else D(StmtsShape(I(B(W(F(b), "else:"))), s.orelse))
  }

  function DecoratorsShape(a: S, xs: seq<CallExpr>): S
    decreases xs, 0
  {
    if xs == [] then a
    else
      var n := |xs| - 1;
      CallShape(W(if n == 0 then a else N(DecoratorsShape(a, xs[..n])), "@"), xs[n])
  }

  /** Decorators, each on a line of its own. */
  function DecoratedShape(a: S, xs: seq<CallExpr>): S
    decreases xs, 1
  {
    if xs == [] then a else N(DecoratorsShape(a, xs))
  }

  function SchemaAttrShape(a: S, attr: SchemaAttr): S
    decreases attr, 1
  {
    var b := AttrTypeShape(a, attr);
    var c := if attr.op.Some? then W(W(W(b, " "), attr.op.value.Symbol()), " ") else b;
    B(match attr.value case Some(value) => ExprShape(c, value) case None => c)
  }

  /** Decorators, name and type. */
  function AttrTypeShape(a: S, attr: SchemaAttr): S
    decreases attr, 0
  {
    var b := W(DecoratedShape(a, attr.decorators), attr.name);
    W(W(if attr.isOptional then W(b, "?") else b, ": "), attr.typeStr)
  }

  function SchemaStmtShape(a: S, s: SchemaStmt): S
    decreases s, 1
  {
    var b := SchemaFrontShape(I(B(W(SchemaHeadShape(a, s), ":"))), s);
    var c := B(StmtsShape(b, s.body));
    D(if s.checks != [] then B(D(B(ChecksShape(N(I(W(F(c), "check:"))), s.checks)))) else c)
  }

  /** What comes before the body: documentation, mixins and the index signature. */
  function SchemaFrontShape(a: S, s: SchemaStmt): S
    decreases s, 0
  {
    var b := if s.doc != "" then B(W(F(a), s.doc)) else a;
    var c := if s.mixins != [] then MixinsShape(b, s.mixins) else b;
    match s.index case Some(index) => IndexSignatureShape(c, index) case None => c
  }

  function SchemaHeadShape(a: S, s: SchemaStmt): S
    decreases s, 0
  {
    var kind := if s.isMixin then "mixin " else if s.isProtocol then "protocol " else "schema ";
    var b := W(W(DecoratedShape(a, s.decorators), kind), s.name);
    var c := BracketedArgumentsShape(b, s.args);
    var d := if s.parentName.Some? then W(W(W(c, "("), Name(s.parentName.value)), ")") else c;
    if s.forHostName.Some? then W(W(d, " for "), Name(s.forHostName.value)) else d
  }

  function BracketedArgumentsShape(a: S, args: Option<Arguments>): S
    decreases args
  {
    match args case Some(args) => W(ArgumentsShape(W(a, "["), args), "]") case None => a
  }

  function MixinsShape(a: S, mixins: seq<Identifier>): S
  {
    B(W(N(D(MixinNamesShape(N(I(W(F(a), "mixin ["))), mixins))), "]"))
  }

  function MixinNamesShape(a: S, xs: seq<Identifier>): S
    decreases xs
  {
    if xs == [] then a
    else
      var n := |xs| - 1;
      W(if n == 0 then a else N(W(MixinNamesShape(a, xs[..n]), ",")), Name(xs[n]))
  }

  function IndexSignatureShape(a: S, index: IndexSignature): S
    decreases index
  {
    var b := W(W(W(W(IndexKeyShape(a, index), "]"), ":"), " "), index.valueType);
    B(OptionShape(b, " = ", index.value))
  }

  function IndexKeyShape(a: S, index: IndexSignature): S
  {
    var b := W(F(a), "[");
    var c := if index.anyOther then W(b, "...") else b;
    W(if index.keyName.Some? then W(c, index.keyName.value + ": ") else c, index.keyType)
  }

  function ChecksShape(a: S, xs: seq<CheckExpr>): S
    decreases xs
  {
    if xs == [] then a
    else
      var n := |xs| - 1;
      CheckShape(if n == 0 then a else N(ChecksShape(a, xs[..n])), xs[n])
  }

  lemma ChecksStart(a: S, xs: seq<CheckExpr>)
    ensures ChecksShape(a, xs[..0]) == a
  {
  }

  lemma ChecksStep(a: S, xs: seq<CheckExpr>, i: nat)
    requires i < |xs|
    ensures ChecksShape(a, xs[..i + 1]) == CheckShape(if i == 0 then a else N(ChecksShape(a, xs[..i])), xs[i])
  {
    hide CheckShape;
    var ys := xs[..i + 1];
    assert ys != [] && |ys| - 1 == i && ys[..i] == xs[..i] && ys[i] == xs[i];
  }

  function RuleStmtShape(a: S, r: RuleStmt): S
    decreases r
  {
    var b := N(I(W(RuleHeadShape(a, r), ":")));
    var c := if r.doc != "" then N(W(b, r.doc)) else b;
    D(if r.checks != [] then B(ChecksShape(c, r.checks)) else c)
  }

  function RuleHeadShape(a: S, r: RuleStmt): S
    decreases r, 0
  {
    var b := W(W(DecoratedShape(a, r.decorators), "rule "), r.name);
    var c := BracketedArgumentsShape(b, r.args);
    var d := if r.parentRules != [] then W(IdentifiersShape(W(c, "("), r.parentRules), ")") else c;
    if r.forHostName.Some? then W(W(d, " for "), Name(r.forHostName.value)) else d
  }

  // ----- expressions -----

  function ExprsShape(a: S, xs: seq<Node<Expr>>, sep: Sep): S
    decreases xs, 0
  {
    if xs == [] then a
    else
      var n := |xs| - 1;
      ExprShape(if n == 0 then a else SepShape(ExprsShape(a, xs[..n], sep), sep), xs[n])
  }

  function ExprShape(a: S, x: Node<Expr>): S
    decreases x, 0
  {
    ExprKindShape(V(a, AtNode(x.line)), x.node)
  }

  function OptionShape(a: S, before: string, x: Option<Node<Expr>>): S
    decreases x
  {
    match x case Some(x) => ExprShape(W(a, before), x) case None => a
  }

  // The kinds of expressions, in three groups.

  function ExprKindShape(a: S, x: Expr): S
    decreases x, 3
  {
    match x
    case Ident(identifier) => W(a, Name(identifier))
    case Unary(op, operand) => ExprShape(if op.Not? then W(W(a, "not"), " ") else W(a, op.Symbol()), operand)
    case Binary(left, op, right) => ExprShape(W(W(W(ExprShape(a, left), " "), op.Symbol()), " "), right)
    case IfExpr(body, cond, orelse) =>
      ExprShape(W(ExprShape(W(ExprShape(a, body), " if "), cond), " else "), orelse)
    case Selector(value, attr, hasQuestion) =>
      W(W(ExprShape(a, value), if hasQuestion then "?." else "."), Name(attr))
    case Call(call) => CallShape(a, call)
    case Paren(expr) => W(ExprShape(W(a, "("), expr), ")")
    case Quant(quant) => QuantShape(a, quant)
    case ListExpr(elts) => ListShape(a, elts)
    case ListIfItem(listIf) => ListIfShape(a, listIf)
    case _ => OtherKindShape(a, x)
  }

  function OtherKindShape(a: S, x: Expr): S
    decreases x, 2
  {
    match x
    case ListComp(elt, generators) => W(ClausesShape(ExprShape(W(a, "["), elt), generators), "]")
    case Starred(value) => ExprShape(W(a, "*"), value)
    case DictComp(key, operation, value, generators) =>
      var b := OperationShape(ExprShape(W(a, "{"), key), operation);
      W(ClausesShape(ExprShape(b, value), generators), "}")
    case ConfigIfEntry(configIf) => ConfigIfShape(a, configIf)
    case Comp(clause) => ClauseShape(a, clause)
    case Schema(schema) => SchemaExprShape(a, schema)
    case Config(items) => ConfigShape(a, items)
    case Check(check) => CheckShape(a, check)
    case Lambda(lambda) => LambdaShape(a, lambda)
    case Sub(subscript) => SubscriptShape(a, subscript)
    case KeywordArg(keyword) => KeywordShape(a, keyword)
    case Args(arguments) => ArgumentsShape(a, arguments)
    case _ => LiteralShape(a, x)
  }

  /** Comparisons and literals. */
  function LiteralShape(a: S, x: Expr): S
    decreases x, 1
  {
    match x
    case Compare(first, ops, comparators) => ComparatorsShape(ExprShape(a, first), ops, comparators)
    case NumberLit(number, suffix) =>
      var b := W(a, NumberText(number));
      if suffix.Some? then W(b, suffix.value.Text()) else b
    case StringLit(str) => W(a, StringText(str))
    case NameConstantLit(constant) => W(a, constant.Symbol())
    case JoinedString(long, values) => W(JoinedShape(W(a, QuoteText(long)), values), QuoteText(long))
    case FormattedValue(value, spec) =>
      var b := ExprShape(W(a, "${"), value);
      W(if spec.Some? then W(b, ": " + spec.value) else b, "}")
    case _ => a
  }

  function ListShape(a: S, elts: seq<Node<Expr>>): S
    decreases elts, 1
  {
    W(C(ExprsShape(O(W(a, "["), ExprLines(elts), StartsConditional(elts)), elts, Item(true))), "]")
  }

  function ConfigShape(a: S, items: seq<Node<ConfigEntry>>): S
    decreases items, 1
  {
    var b := W(a, "{");
    W(if items == [] then b else C(EntriesShape(O(b, EntryLines(items), IsBlock(items)), items, Item(true))), "}")
  }

  function ExprLines(xs: seq<Node<Expr>>): seq<nat> { seq(|xs|, i requires 0 <= i < |xs| => xs[i].line) }

  function EntryLines(xs: seq<Node<ConfigEntry>>): seq<nat> { seq(|xs|, i requires 0 <= i < |xs| => xs[i].line) }

  /** A list that starts with a conditional item is never on one line. */
  predicate StartsConditional(elts: seq<Node<Expr>>) { elts != [] && elts[0].node.ListIfItem? }

  /** A configuration of one entry is not on one line when that entry holds a block. */
  predicate IsBlock(items: seq<Node<ConfigEntry>>)
  {
    && |items| == 1
    && var value := items[0].node.value.node; value.ConfigIfEntry? || value.Config? || value.Schema?
  }

  function NumberText(number: NumberValue): string
  {
    match number case IntValue(i) => TypePrinter.IntText(i) case FloatValue(text) => text
  }

  function QuoteText(long: bool): string { if long then "\"\"\"" else "\"" }

  function StringText(str: StringValue): string
  {
    if str.rawValue != "" then str.rawValue
    else QuoteText(str.isLongString) + TypePrinter.Escape(str.value) + QuoteText(str.isLongString)
  }

  function OperationShape(a: S, operation: EntryOperation): S
  {
    W(W(if operation.Union? then a else W(a, " "), operation.Symbol()), " ")
  }

  function CallShape(a: S, call: CallExpr): S
    decreases call
  {
    var args := ExprsShape(W(ExprShape(a, call.func), "("), call.args, Comma);
    W(CallArgumentsShape(args, call.args != [], call.keywords), ")")
  }

  /** Keyword arguments, after positional ones or not. */
  function CallArgumentsShape(a: S, more: bool, kwargs: seq<Keyword>): S
    decreases kwargs, 1
  {
    KeywordsShape(if more && kwargs != [] then W(a, ", ") else a, kwargs)
  }

  function KeywordsShape(a: S, xs: seq<Keyword>): S
    decreases xs, 0
  {
    if xs == [] then a
    else
      var n := |xs| - 1;
      KeywordShape(if n == 0 then a else W(KeywordsShape(a, xs[..n]), ", "), xs[n])
  }

  lemma KeywordsStart(a: S, xs: seq<Keyword>)
    ensures KeywordsShape(a, xs[..0]) == a
  {
  }

  lemma KeywordsStep(a: S, xs: seq<Keyword>, i: nat)
    requires i < |xs|
    ensures KeywordsShape(a, xs[..i + 1])
      == KeywordShape(if i == 0 then a else W(KeywordsShape(a, xs[..i]), ", "), xs[i])
  {
    hide KeywordShape;
    var ys := xs[..i + 1];
    assert ys != [] && |ys| - 1 == i && ys[..i] == xs[..i] && ys[i] == xs[i];
  }

  function KeywordShape(a: S, keyword: Keyword): S
    decreases keyword
  {
    OptionShape(W(a, Name(keyword.arg)), "=", keyword.value)
  }

  function QuantShape(a: S, q: QuantExpr): S
    decreases q
  {
    var b := W(IdentifiersShape(W(W(a, q.op.Symbol()), " "), q.variables), " in ");
    var c := N(I(W(ExprShape(b, q.target), " {")));
    W(N(D(OptionShape(ExprShape(c, q.test), " if ", q.ifCond))), "}")
  }

  function ListIfShape(a: S, x: ListIfItemExpr): S
    decreases x
  {
    var b := N(D(ExprsShape(N(I(W(ExprShape(W(a, "if "), x.ifCond), ":"))), x.exprs, Line)));
    match x.orelse
    case NoListElse => b
    case ListElse(elts) => D(ExprsShape(N(I(W(b, "else:"))), elts, Line))
    case ListElif(line, listIf) => ListIfShape(V(W(b, "el"), AtNode(line)), listIf)
  }

  function ConfigIfShape(a: S, x: ConfigIfEntryExpr): S
    decreases x
  {
    var b := N(D(EntriesShape(N(I(W(ExprShape(W(a, "if "), x.ifCond), ":"))), x.items, Line)));
    match x.orelse
    case NoConfigElse => b
    case ConfigElse(items) => D(EntriesShape(N(I(W(b, "else:"))), items, Line))
    case ConfigElif(line, configIf) => ConfigIfShape(V(W(b, "el"), AtNode(line)), configIf)
  }

  function EntriesShape(a: S, xs: seq<Node<ConfigEntry>>, sep: Sep): S
    decreases xs, 0
  {
    if xs == [] then a
    else
      var n := |xs| - 1;
      EntryShape(if n == 0 then a else SepShape(EntriesShape(a, xs[..n], sep), sep), xs[n])
  }

  function EntryShape(a: S, item: Node<ConfigEntry>): S
    decreases item
  {
    var entry := item.node;
    match entry.key
    case Some(key) =>
      var b := KeyShape(a, key);
      var c := if entry.insertIndex >= 0 then W(b, "[" + TypePrinter.IntText(entry.insertIndex) + "]") else b;
      W(ExprShape(OperationShape(c, entry.operation), entry.value), ClosingBraces(key.node))
    case None => ExprShape(if entry.value.node.ConfigIfEntry? then a else W(a, "**"), entry.value)
  }

  /** The source takes a text apart and puts braces around the rest when a part is not a plain name. */
  function Nested(key: Expr): bool
  {
    key.Ident? && exists part | part in key.identifier.names :: !part.isPlain
  }

  function KeyShape(a: S, key: Node<Expr>): S
    decreases key, 1
  {
    if !key.node.Ident? then ExprShape(a, key)
    else if Nested(key.node) then W(V(a, AtNode(key.line)), Braced(key.node.identifier.names))
    else ExprShape(V(a, AtNode(key.line)), key)
  }

  function ClosingBraces(key: Expr): string
  {
    if Nested(key) then seq(|key.identifier.names| - 1, _ => '}') else ""
  }

  function ClausesShape(a: S, xs: seq<CompClause>): S
    decreases xs
  {
    if xs == [] then a
    else
      var n := |xs| - 1;
      ClauseShape(ClausesShape(a, xs[..n]), xs[n])
  }

  function ClauseShape(a: S, clause: CompClause): S
    decreases clause
  {
    var b := W(IdentifiersShape(W(a, " for "), clause.targets), " in ");
    IfsShape(ExprShape(b, clause.iter), clause.ifs)
  }

  function IfsShape(a: S, ifs: seq<Node<Expr>>): S
    decreases ifs
  {
    if ifs == [] then a
    else
      var n := |ifs| - 1;
      ExprShape(W(IfsShape(a, ifs[..n]), " if "), ifs[n])
  }

  function SchemaExprShape(a: S, x: SchemaExpr): S
    decreases x
  {
    var b := W(a, Name(x.name));
    var c :=
      if x.args != [] || x.kwargs != [] then
        W(CallArgumentsShape(ExprsShape(W(b, "("), x.args, Comma), x.args != [], x.kwargs), ")")
      else b;
    ExprShape(W(c, " "), x.config)
  }

  function CheckShape(a: S, check: CheckExpr): S
    decreases check
  {
    OptionShape(OptionShape(ExprShape(a, check.test), " if ", check.ifCond), ", ", check.msg)
  }

  function LambdaShape(a: S, x: LambdaExpr): S
    decreases x, 1
  {
    W(N(D(StmtsShape(I(B(W(W(LambdaHeadShape(a, x), " "), "{"))), x.body))), "}")
  }

  function LambdaHeadShape(a: S, x: LambdaExpr): S
    decreases x, 0
  {
    var b := W(a, "lambda");
    var c := match x.args case Some(args) => ArgumentsShape(W(b, " "), args) case None => b;
    if x.returnType.Some? then W(W(W(W(c, " "), "->"), " "), x.returnType.value) else c
  }

  function SubscriptShape(a: S, x: Subscript): S
    decreases x
  {
    var b := ExprShape(a, x.value);
    var c := W(if x.hasQuestion then W(b, "?") else b, "[");
    W(match x.index
      case Some(index) => ExprShape(c, index)
      case None => BoundShape(W(BoundShape(W(BoundShape(c, x.lower), ":"), x.upper), ":"), x.step), "]")
  }

  function BoundShape(a: S, x: Option<Node<Expr>>): S
    decreases x
  {
    match x case Some(x) => ExprShape(a, x) case None => a
  }

  /** Parameters are zipped: surplus names, annotations or defaults are not written. */
  function ParameterCount(x: Arguments): nat
  {
    var n := if |x.annotations| < |x.args| then |x.annotations| else |x.args|;
    if |x.defaults| < n then |x.defaults| else n
  }

  function ArgumentsShape(a: S, x: Arguments): S
    decreases x
  {
    ParametersShape(a, x, ParameterCount(x))
  }

  function ParametersShape(a: S, x: Arguments, n: nat): S
    requires n <= ParameterCount(x)
    decreases x, n, 1
  {
    if n == 0 then a
    else
      ParameterShape(if n == 1 then a else W(ParametersShape(a, x, n - 1), ", "), x, n - 1)
  }

  function ParameterShape(a: S, x: Arguments, i: nat): S
    requires i < ParameterCount(x)
    decreases x, i, 0
  {
    var b := W(a, Name(x.args[i]));
    var c := if x.annotations[i].Some? then W(b, ": " + x.annotations[i].value) else b;
    OptionShape(c, " = ", x.defaults[i])
  }

  function ComparatorsShape(a: S, ops: seq<CmpOp>, comparators: seq<Node<Expr>>): S
    decreases comparators
  {
    if comparators == [] then a
    else
      var n := |comparators| - 1;
      var b := ComparatorsShape(a, ops, comparators[..n]);
      if n < |ops| then ExprShape(W(W(W(b, " "), ops[n].Symbol()), " "), comparators[n]) else b
  }

  /** The parts of an interpolated string: text is written as it is, with its quotes escaped. */
  function JoinedShape(a: S, values: seq<Node<Expr>>): S
    decreases values
  {
    if values == [] then a
    else
      var n := |values| - 1;
      JoinedValueShape(JoinedShape(a, values[..n]), values[n])
  }

  function JoinedValueShape(a: S, value: Node<Expr>): S
    decreases value, 1
  {
    match value.node
    case StringLit(str) => W(a, TypePrinter.Escape(str.value))
    case _ => ExprShape(a, value)
  }

  lemma {:induction false} ExprsAnyItem(a: S, xs: seq<Node<Expr>>, oneLine: bool)
    ensures ExprsShape(a, xs, Item(oneLine)) == ExprsShape(a, xs, Item(true))
    decreases |xs|
  {
    if xs != [] { ExprsAnyItem(a, xs[..|xs| - 1], oneLine); }
  }

  lemma {:induction false} EntriesAnyItem(a: S, xs: seq<Node<ConfigEntry>>, oneLine: bool)
    ensures EntriesShape(a, xs, Item(oneLine)) == EntriesShape(a, xs, Item(true))
    decreases |xs|
  {
    if xs != [] { EntriesAnyItem(a, xs[..|xs| - 1], oneLine); }
  }
}
