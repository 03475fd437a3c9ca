/** The pretty printer: output, indentation and the queue of comments still to print,
    kclvm/ast_pretty/src, with the default configuration and without hooks. */
module Printer {
  import opened PrettyAst
  import opened PrintSpec
  import opened Wrappers
  import opened Numbers
  import TypePrinter

  class Printer {
    var pieces: seq<Piece>
    var indent: nat
    var lastAstLine: nat
    var comments: seq<Comment>
    /** Which of the lists and configurations being written are on one line. */
    ghost var opens: seq<bool>

    constructor ()
      ensures pieces == [] && indent == 0 && lastAstLine == 0 && comments == [] && opens == []
    {
      pieces := [];
      indent := 0;
      lastAstLine := 0;
      comments := [];
      opens := [];
    }

    /** All comments: the printed ones and the queued ones. */
    ghost function All(): seq<Comment>
      reads this
    {
      NotesOf(pieces) + comments
    }

    /** Every width written so far is the indentation of its place, and every list is laid out by the rule. */
    ghost predicate LaidOut()
      reads this
    {
      LayoutOf(pieces, All()) == Layout(indent, opens)
    }

    /** The line of the first queued comment. */
    function FirstDue(): Option<nat>
      reads this
    {
      if comments != [] then Some(comments[0].line) else None
    }

    /** What every printing method keeps: the text is extended to the shape `a`, the indentation is
        changed by `d`, no comment is lost or repeated or moved, and layout and order are kept. */
    twostate predicate Wrote(a: S, d: int)
      reads this
    {
      && opens == old(opens) && Extended(a, d)
    }

    twostate predicate Extended(a: S, d: int)
      reads this
    {
      && indent == old(indent) + d
      && Shape(pieces) == a
      && All() == old(All())
      && (old(LaidOut()) ==> LaidOut())
      && (old(Orderly(pieces, lastAstLine, comments)) ==> Orderly(pieces, lastAstLine, comments))
    }

    // ----- writing (lib.rs) -----

    /** Appends a piece that fits the layout, which it changes to indentation `width`. */
    method Push(piece: Piece, width: nat, ghost opens': seq<bool>)
      requires PieceNotes(piece) == [] && !piece.Visit? && !piece.Rest?
      requires Advance(Layout(indent, opens), piece, FirstDue()) == Layout(width, opens')
      modifies this`pieces, this`indent, this`opens
      ensures Extended(old(Shape(pieces)) + Erase(piece), width - old(indent)) && opens == opens'
    {
      hide Orderly, Shape, NotesOf, LayoutOf, Advance, Erase;
      ShapeAppend(pieces, piece);
      LayoutAppend(pieces, piece, All());
      assert Due(All(), |NotesOf(pieces)|) == FirstDue();
      if Orderly(pieces, lastAstLine, comments) { OtherKeepsOrder(pieces, lastAstLine, comments, piece); }
      pieces := pieces + [piece];
      indent := width;
      opens := opens';
      assert NotesOf(pieces) == old(NotesOf(pieces)) + [] == old(NotesOf(pieces));
    }

    method Write(text: string)
      modifies this`pieces, this`indent, this`opens
      ensures Wrote(W(old(Shape(pieces)), text), 0)
    {
      hide Orderly, Shape, NotesOf, LayoutOf;
      Push(Tok(text), indent, opens);
    }

    method WriteNewline()
      modifies this`pieces, this`indent, this`opens
      ensures Wrote(N(old(Shape(pieces))), 0)
    {
      hide Orderly, Shape, NotesOf, LayoutOf;
      Push(Newline(indent), indent, opens);
    }

    method WriteNewlineWithoutFill()
      modifies this`pieces, this`indent, this`opens
      ensures Wrote(B(old(Shape(pieces))), 0)
    {
      hide Orderly, Shape, NotesOf, LayoutOf;
      Push(Break, indent, opens);
    }

    method FillIndent()
      modifies this`pieces, this`indent, this`opens
      ensures Wrote(F(old(Shape(pieces))), 0)
    {
      hide Orderly, Shape, NotesOf, LayoutOf;
      Push(Fill(indent), indent, opens);
    }

    method EnterIndent()
      modifies this`pieces, this`indent, this`opens
      ensures Wrote(I(old(Shape(pieces))), 1)
    {
      hide Orderly, Shape, NotesOf, LayoutOf;
      Push(Enter, indent + 1, opens);
    }

    method LeaveIndent()
      requires indent > 0
      modifies this`pieces, this`indent, this`opens
      ensures Wrote(D(old(Shape(pieces))), -1)
    {
      hide Orderly, Shape, NotesOf, LayoutOf;
      Push(Leave, indent - 1, opens);
    }

    method IndentWithNewline()
      modifies this`pieces, this`indent, this`opens
      ensures Wrote(N(I(old(Shape(pieces)))), 1)
    {
      hide Orderly, Shape, NotesOf, LayoutOf;
      EnterIndent();
      WriteNewline();
    }

    method DedentWithNewline()
      requires indent > 0
      modifies this`pieces, this`indent, this`opens
      ensures Wrote(N(D(old(Shape(pieces)))), -1)
    {
      hide Orderly, Shape, NotesOf, LayoutOf;
      LeaveIndent();
      WriteNewline();
    }

    // Around and between the items of a list or configuration, on one line or not.

    method OpenItems(oneLine: bool, lines: seq<nat>, forced: bool)
      requires oneLine == OneLine(lines, forced, FirstDue())
      modifies this`pieces, this`indent, this`opens
      ensures Extended(O(old(Shape(pieces)), lines, forced), if oneLine then 0 else 1)
      ensures opens == old(opens) + [oneLine]
    {
      hide Orderly, Shape, NotesOf, LayoutOf;
      var width := if oneLine then indent else indent + 1;
      Push(Open(oneLine, width, lines, forced, FirstDue()), width, opens + [oneLine]);
    }

    method CloseItems(oneLine: bool, ghost outer: seq<bool>)
      requires (!oneLine ==> indent > 0) && opens == outer + [oneLine]
      modifies this`pieces, this`indent, this`opens
      ensures Extended(C(old(Shape(pieces))), if oneLine then 0 else -1)
      ensures opens == outer
    {
      hide Orderly, Shape, NotesOf, LayoutOf;
      var width := if oneLine then indent else indent - 1;
      assert opens[..|opens| - 1] == outer;
      Push(Close(oneLine, width), width, outer);
    }

    /** The separator suits the list being written. */
    ghost predicate Suits(sep: Sep)
      reads this
    {
      sep.Item? ==> opens != [] && opens[|opens| - 1] == sep.oneLine
    }

    method WriteSep(sep: Sep)
      requires Suits(sep)
      modifies this`pieces, this`indent, this`opens
      ensures Wrote(SepShape(old(Shape(pieces)), sep), 0)
    {
      hide Orderly, Shape, NotesOf, LayoutOf;
      match sep {
        case Comma => Write(", ");
        case Line => WriteNewline();
        case Item(oneLine) => Push(Between(oneLine, indent), indent, opens);
      }
    }

    /** `has_comments_on_node`. */
    method HasCommentsOnNode(line: nat) returns (r: bool)
      ensures r <==> comments != [] && comments[0].line <= line
    {
      hide *;
      var index := 0;
      while index < |comments| && comments[index].line <= line
        invariant index <= |comments| && forall i | 0 <= i < index :: comments[i].line <= line
      {
        index := index + 1;
      }
      return index > 0;
    }

    /** `write_ast_comments`, and the mark that a node is reached. */
    method WriteAstComments(at: Reached)
      modifies this`pieces, this`comments, this`lastAstLine
      ensures Wrote(V(old(Shape(pieces)), at), 0)
    {
      hide Orderly, Shape, NotesOf, LayoutOf, V, Erase, Advance;
      ghost var last, queue := lastAstLine, comments;
      var line := at.Line();
      var notes := [];
      if line > lastAstLine {
        lastAstLine := line;
        notes := PopComments(line);
      }
      VisitKeepsLayout(pieces, at, notes, Layout(indent, opens), old(All()));
      assert notes + comments == queue;
      if Orderly(pieces, last, queue) { VisitKeepsOrder(pieces, last, notes, comments, at, indent); }
      pieces := pieces + [Visit(at, notes, indent)];
      assert All() == old(All());
    }

    method PopComments(line: nat) returns (notes: seq<Comment>)
      modifies this`comments
      ensures notes + comments == old(comments)
      ensures forall c | c in notes :: c.line <= line
      ensures comments != [] ==> line < comments[0].line
    {
      hide *;
      var count := 0;
      while count < |comments| && comments[count].line <= line
        invariant count <= |comments| && forall i | 0 <= i < count :: comments[i].line <= line
      {
        count := count + 1;
      }
      notes := comments[..count];
      comments := comments[count..];
    }

    // ----- statements (node.rs) -----

    method Stmts(xs: seq<Node<Stmt>>)
      modifies this
      ensures Wrote(StmtsShape(old(Shape(pieces)), xs), 0)
      decreases xs
    {
      hide Orderly, Shape, LaidOut, All, StmtNodeShape;
      for i := 0 to |xs|
        invariant Wrote(StmtsShape(old(Shape(pieces)), xs[..i]), 0)
      {
        StmtNode(xs[i]);
        assert xs[..i + 1][..i] == xs[..i];
      }
      assert xs[..|xs|] == xs;
    }

    method StmtNode(stmt: Node<Stmt>)
      modifies this
      ensures Wrote(StmtNodeShape(old(Shape(pieces)), stmt), 0)
      decreases stmt
    {
      hide Orderly, Shape, LaidOut, All, StmtShape;
      FillIndent();
      WriteAstComments(AtStmt(stmt));
      WalkStmt(stmt.node);
    }

    method WalkStmt(stmt: Stmt)
      modifies this
      ensures Wrote(StmtShape(old(Shape(pieces)), stmt), 0)
      decreases stmt, 1
    {
      hide Orderly, Shape, LaidOut, All, ExprsShape, SchemaExprShape, CheckShape, IfStmtShape, SchemaAttrShape,
        SchemaStmtShape, RuleStmtShape, ExprShape, TargetsShape;
      match stmt {
        case TypeAlias(name, value) => WalkTypeAlias(stmt);
        case ExprStmt(exprs) =>
          Exprs(exprs, Comma);
          WriteNewlineWithoutFill();
        case Unification(target, value) =>
          WalkIdentifier(target);
          Write(": ");
          WalkSchemaExpr(value);
          WriteNewlineWithoutFill();
        case Assign(targets, ty, value) => WalkAssign(stmt);
        case AugAssign(target, op, value) => WalkAugAssign(stmt);
        case Assert(check) =>
          Write("assert ");
          WalkCheckExpr(check);
          WriteNewlineWithoutFill();
        case If(ifStmt) => WalkIfStmt(ifStmt);
        case Import(path, asname) => WalkImport(stmt);
        case Attr(attr) => WalkSchemaAttr(attr);
        case SchemaDef(schema) => WalkSchemaStmt(schema);
        case RuleDef(rule) => WalkRuleStmt(rule);
      }
    }

    method WalkTypeAlias(stmt: Stmt)
      requires stmt.TypeAlias?
      modifies this
      ensures Wrote(StmtShape(old(Shape(pieces)), stmt), 0)
      decreases stmt, 0
    {
      hide Orderly, Shape, LaidOut, All, ExprsShape;
      Write("type");
      Write(" ");
      WalkIdentifier(stmt.typeName);
      Write(" = ");
      Write(stmt.typeValue);
      WriteNewlineWithoutFill();
    }

    method WalkAssign(stmt: Stmt)
      requires stmt.Assign?
      modifies this
      ensures Wrote(StmtShape(old(Shape(pieces)), stmt), 0)
      decreases stmt, 0
    {
      hide Orderly, Shape, LaidOut, All, ExprShape, TargetsShape;
      WalkTargets(stmt.targets, stmt.ty);
      WalkExpr(stmt.value);
      WriteNewlineWithoutFill();
      if stmt.value.node.Schema? {
        WriteNewlineWithoutFill();
      }
    }

    method WalkTargets(targets: seq<Identifier>, ty: Option<TypePrinter.Type>)
      modifies this
      ensures Wrote(TargetsShape(old(Shape(pieces)), targets, ty), 0)
      decreases targets
    {
      hide Orderly, Shape, LaidOut, All, TargetShape;
      for i := 0 to |targets|
        invariant Wrote(TargetsShape(old(Shape(pieces)), targets[..i], ty), 0)
      {
        WalkTarget(targets[i], if i == 0 then ty else None);
        assert targets[..i + 1][..i] == targets[..i];
      }
      assert targets[..|targets|] == targets;
    }

    method WalkTarget(target: Identifier, ty: Option<TypePrinter.Type>)
      modifies this
      ensures Wrote(TargetShape(old(Shape(pieces)), target, ty), 0)
      decreases target
    {
      hide Orderly, Shape, LaidOut, All, Name, TypePrinter.Print;
      WalkIdentifier(target);
      if ty.Some? {
        Write(": ");
        Write(TypePrinter.Print(ty.value));
      }
      Write(" = ");
    }

    method WalkAugAssign(stmt: Stmt)
      requires stmt.AugAssign?
      modifies this
      ensures Wrote(StmtShape(old(Shape(pieces)), stmt), 0)
      decreases stmt, 0
    {
      hide Orderly, Shape, LaidOut, All, ExprShape, Name, AugOp.Symbol;
      WalkIdentifier(stmt.augTarget);
      Write(" ");
      Write(stmt.augOp.Symbol());
      Write(" ");
      WalkExpr(stmt.augValue);
      WriteNewlineWithoutFill();
    }

    method WalkIfStmt(s: IfStmt)
      modifies this
      ensures Wrote(IfStmtShape(old(Shape(pieces)), s), 0)
      decreases s, 1
    {
      hide Orderly, Shape, LaidOut, All, ExprShape, StmtsShape;
      WalkIfHead(s);
      if s.orelse != [] {
        if s.orelse[0].node.If? {
          FillIndent();
          Write("el");
          WalkIfStmt(s.orelse[0].node.ifStmt);
        } else {
          FillIndent();
          Write("else:");
          WriteNewlineWithoutFill();
          EnterIndent();
          Stmts(s.orelse);
          LeaveIndent();
        }
      } else {
        WriteNewlineWithoutFill();
      }
    }

    /** The condition and the body. */
    method WalkIfHead(s: IfStmt)
      modifies this
      ensures Wrote(D(StmtsShape(I(B(W(ExprShape(W(old(Shape(pieces)), "if "), s.cond), ":"))), s.body)), 0)
      decreases s, 0
    {
      hide Orderly, Shape, LaidOut, All, ExprShape, StmtsShape;
      Write("if ");
      WalkExpr(s.cond);
      Write(":");
      WriteNewlineWithoutFill();
      EnterIndent();
      Stmts(s.body);
      LeaveIndent();
    }

    method WalkImport(stmt: Stmt)
      requires stmt.Import?
      modifies this
      ensures Wrote(StmtShape(old(Shape(pieces)), stmt), 0)
      decreases stmt, 0
    {
      hide Orderly, Shape, LaidOut, All;
      Write("import ");
      Write(stmt.path);
      if stmt.asname.Some? {
        Write(" as ");
        Write(stmt.asname.value);
      }
      WriteNewlineWithoutFill();
    }

    method Decorators(xs: seq<CallExpr>)
      modifies this
      ensures Wrote(DecoratorsShape(old(Shape(pieces)), xs), 0)
      decreases xs, 0
    {
      hide Orderly, Shape, LaidOut, All, CallShape;
      for i := 0 to |xs|
        invariant Wrote(DecoratorsShape(old(Shape(pieces)), xs[..i]), 0)
      {
        if i > 0 { WriteNewline(); }
        Write("@");
        WalkCallExpr(xs[i]);
        assert xs[..i + 1][..i] == xs[..i];
      }
      assert xs[..|xs|] == xs;
    }

    method Decorated(xs: seq<CallExpr>)
      modifies this
      ensures Wrote(DecoratedShape(old(Shape(pieces)), xs), 0)
      decreases xs, 1
    {
      hide Orderly, Shape, LaidOut, All;
      Decorators(xs);
      if xs != [] {
        WriteNewline();
      }
    }

    method WalkSchemaAttr(attr: SchemaAttr)
      modifies this
      ensures Wrote(SchemaAttrShape(old(Shape(pieces)), attr), 0)
      decreases attr, 1
    {
      hide Orderly, Shape, LaidOut, All, ExprShape, AttrTypeShape, BinOrAugOp.Symbol;
      AttrType(attr);
      if attr.op.Some? {
        Write(" ");
        Write(attr.op.value.Symbol());
        Write(" ");
      }
      if attr.value.Some? {
        WalkExpr(attr.value.value);
      }
      WriteNewlineWithoutFill();
    }

    method AttrType(attr: SchemaAttr)
      modifies this
      ensures Wrote(AttrTypeShape(old(Shape(pieces)), attr), 0)
      decreases attr, 0
    {
      hide Orderly, Shape, LaidOut, All, DecoratedShape;
      Decorated(attr.decorators);
      Write(attr.name);
      if attr.isOptional {
        Write("?");
      }
      Write(": ");
      Write(attr.typeStr);
    }

    method WalkSchemaStmt(s: SchemaStmt)
      modifies this
      ensures Wrote(SchemaStmtShape(old(Shape(pieces)), s), 0)
      decreases s, 1
    {
      hide Orderly, Shape, LaidOut, All, SchemaHeadShape, SchemaFrontShape, StmtsShape, ChecksShape;
      SchemaHead(s);
      Write(":");
      WriteNewlineWithoutFill();
      EnterIndent();
      SchemaFront(s);
      Stmts(s.body);
      WriteNewlineWithoutFill();
      if s.checks != [] {
        CheckBlock(s.checks);
      }
      LeaveIndent();
    }

    method SchemaFront(s: SchemaStmt)
      modifies this
      ensures Wrote(SchemaFrontShape(old(Shape(pieces)), s), 0)
      decreases s, 0
    {
      hide Orderly, Shape, LaidOut, All, MixinsShape, IndexSignatureShape;
      if s.doc != "" {
        FillIndent();
        Write(s.doc);
        WriteNewlineWithoutFill();
      }
      if s.mixins != [] {
        Mixins(s.mixins);
      }
      if s.index.Some? {
        WalkIndexSignature(s.index.value);
      }
    }

    method CheckBlock(checks: seq<CheckExpr>)
      modifies this
      ensures Wrote(B(D(B(ChecksShape(N(I(W(F(old(Shape(pieces))), "check:"))), checks)))), 0)
      decreases checks, 1
    {
      hide Orderly, Shape, LaidOut, All, ChecksShape;
      FillIndent();
      Write("check:");
      IndentWithNewline();
      Checks(checks);
      WriteNewlineWithoutFill();
      LeaveIndent();
      WriteNewlineWithoutFill();
    }

    method SchemaHead(s: SchemaStmt)
      modifies this
      ensures Wrote(SchemaHeadShape(old(Shape(pieces)), s), 0)
      decreases s, 0
    {
      hide Orderly, Shape, LaidOut, All, DecoratedShape, BracketedArgumentsShape, Name;
      Decorated(s.decorators);
      if s.isMixin {
        Write("mixin ");
      } else if s.isProtocol {
        Write("protocol ");
      } else {
        Write("schema ");
      }
      Write(s.name);
      BracketedArguments(s.args);
      if s.parentName.Some? {
        Write("(");
        WalkIdentifier(s.parentName.value);
        Write(")");
      }
      if s.forHostName.Some? {
        Write(" for ");
        WalkIdentifier(s.forHostName.value);
      }
    }

    method BracketedArguments(args: Option<Arguments>)
      modifies this
      ensures Wrote(BracketedArgumentsShape(old(Shape(pieces)), args), 0)
      decreases args
    {
      hide Orderly, Shape, LaidOut, All, ArgumentsShape;
      if args.Some? {
        Write("[");
        WalkArguments(args.value);
        Write("]");
      }
    }

    method Mixins(mixins: seq<Identifier>)
      modifies this
      ensures Wrote(MixinsShape(old(Shape(pieces)), mixins), 0)
      decreases mixins
    {
      hide Orderly, Shape, LaidOut, All, MixinNamesShape;
      FillIndent();
      Write("mixin [");
      IndentWithNewline();
      MixinNames(mixins);
      LeaveIndent();
      WriteNewline();
      Write("]");
      WriteNewlineWithoutFill();
    }

    method MixinNames(xs: seq<Identifier>)
      modifies this
      ensures Wrote(MixinNamesShape(old(Shape(pieces)), xs), 0)
      decreases xs
    {
      hide Orderly, Shape, LaidOut, All, Name;
      for i := 0 to |xs|
        invariant Wrote(MixinNamesShape(old(Shape(pieces)), xs[..i]), 0)
      {
        if i > 0 { Write(","); WriteNewline(); }
        WalkIdentifier(xs[i]);
        assert xs[..i + 1][..i] == xs[..i];
      }
      assert xs[..|xs|] == xs;
    }

    method WalkIndexSignature(index: IndexSignature)
      modifies this
      ensures Wrote(IndexSignatureShape(old(Shape(pieces)), index), 0)
      decreases index, 1
    {
      hide Orderly, Shape, LaidOut, All, OptionShape, IndexKeyShape;
      IndexKey(index);
      Write("]");
      Write(":");
      Write(" ");
      Write(index.valueType);
      Optional(" = ", index.value);
      WriteNewlineWithoutFill();
    }

    method IndexKey(index: IndexSignature)
      modifies this
      ensures Wrote(IndexKeyShape(old(Shape(pieces)), index), 0)
      decreases index, 0
    {
      hide Orderly, Shape, LaidOut, All;
      FillIndent();
      Write("[");
      if index.anyOther {
        Write("...");
      }
      if index.keyName.Some? {
        Write(index.keyName.value + ": ");
      }
      Write(index.keyType);
    }

    method Checks(xs: seq<CheckExpr>)
      modifies this
      ensures Wrote(ChecksShape(old(Shape(pieces)), xs), 0)
      decreases xs, 0
    {
      hide Orderly, Shape, LaidOut, All, CheckShape, ChecksShape;
      ChecksStart(old(Shape(pieces)), xs);
      for i := 0 to |xs|
        invariant Wrote(ChecksShape(old(Shape(pieces)), xs[..i]), 0)
      {
        if i > 0 { WriteNewline(); }
        WalkCheckExpr(xs[i]);
        ChecksStep(old(Shape(pieces)), xs, i);
      }
      assert xs[..|xs|] == xs;
    }

    method WalkRuleStmt(r: RuleStmt)
      modifies this
      ensures Wrote(RuleStmtShape(old(Shape(pieces)), r), 0)
      decreases r, 1
    {
      hide Orderly, Shape, LaidOut, All, RuleHeadShape, ChecksShape;
      RuleHead(r);
      Write(":");
      IndentWithNewline();
      if r.doc != "" {
        Write(r.doc);
        WriteNewline();
      }
      if r.checks != [] {
        Checks(r.checks);
        WriteNewlineWithoutFill();
      }
      LeaveIndent();
    }

    method RuleHead(r: RuleStmt)
      modifies this
      ensures Wrote(RuleHeadShape(old(Shape(pieces)), r), 0)
      decreases r, 0
    {
      hide Orderly, Shape, LaidOut, All, DecoratedShape, BracketedArgumentsShape, Name, IdentifiersShape;
      Decorated(r.decorators);
      Write("rule ");
      Write(r.name);
      BracketedArguments(r.args);
      if r.parentRules != [] {
        Write("(");
        Identifiers(r.parentRules);
        Write(")");
      }
      if r.forHostName.Some? {
        Write(" for ");
        WalkIdentifier(r.forHostName.value);
      }
    }

    // ----- expressions (node.rs) -----

    method Exprs(xs: seq<Node<Expr>>, sep: Sep)
      requires Suits(sep)
      modifies this
      ensures Wrote(ExprsShape(old(Shape(pieces)), xs, sep), 0)
      decreases xs, 0
    {
      hide Orderly, Shape, LaidOut, All, ExprShape, SepShape;
      for i := 0 to |xs|
        invariant Wrote(ExprsShape(old(Shape(pieces)), xs[..i], sep), 0)
      {
        if i > 0 { WriteSep(sep); }
        WalkExpr(xs[i]);
        assert xs[..i + 1][..i] == xs[..i];
      }
      assert xs[..|xs|] == xs;
    }

    method WalkExpr(x: Node<Expr>)
      modifies this
      ensures Wrote(ExprShape(old(Shape(pieces)), x), 0)
      decreases x, 0
    {
      hide Orderly, Shape, LaidOut, All, ExprKindShape;
      WriteAstComments(AtNode(x.line));
      WalkExprKind(x.node);
    }

    method Optional(before: string, x: Option<Node<Expr>>)
      modifies this
      ensures Wrote(OptionShape(old(Shape(pieces)), before, x), 0)
      decreases x
    {
      hide Orderly, Shape, LaidOut, All, ExprShape;
      if x.Some? {
        Write(before);
        WalkExpr(x.value);
      }
    }

    method WalkIdentifier(identifier: Identifier)
      modifies this
      ensures Wrote(W(old(Shape(pieces)), Name(identifier)), 0)
      decreases identifier
    {
      hide Orderly, Shape, LaidOut, All, Name;
      Write(Name(identifier));
    }

    method Identifiers(xs: seq<Identifier>)
      modifies this
      ensures Wrote(IdentifiersShape(old(Shape(pieces)), xs), 0)
      decreases xs
    {
      hide Orderly, Shape, LaidOut, All, Name;
      for i := 0 to |xs|
        invariant Wrote(IdentifiersShape(old(Shape(pieces)), xs[..i]), 0)
      {
        if i > 0 { Write(", "); }
        WalkIdentifier(xs[i]);
        assert xs[..i + 1][..i] == xs[..i];
      }
      assert xs[..|xs|] == xs;
    }

    /** Whether a list or configuration whose items start on these lines is written on one line: they
        start on the same line, not all of them have comments waiting, and nothing forces several. */
    method InOneLine(lines: seq<nat>, forced: bool) returns (oneLine: bool)
      ensures oneLine <==> OneLine(lines, forced, FirstDue())
    {
      var same, allHaveComments := true, true;
      for i := 0 to |lines|
        invariant same <==> forall j | 0 <= j < i :: lines[j] == lines[0]
        invariant allHaveComments <==>
          (i > 0 ==> comments != []) && forall j | 0 <= j < i :: comments[0].line <= lines[j]
      {
        if lines[i] != lines[0] { same := false; }
        var has := HasCommentsOnNode(lines[i]);
        if !has { allHaveComments := false; }
      }
      oneLine := same && !(lines != [] && allHaveComments);
      if forced { oneLine := false; }
    }

    /** `walk_expr`, in three groups. */
    method WalkExprKind(x: Expr)
      modifies this
      ensures Wrote(ExprKindShape(old(Shape(pieces)), x), 0)
      decreases x, 3
    {
      hide Orderly, Shape, LaidOut, All, CallShape, QuantShape, ListIfShape, Name, ExprShape, ListShape, OtherKindShape;
      if x.Ident? {
        WalkIdentifier(x.identifier);
      } else if x.Unary? {
        WalkUnary(x);
      } else if x.Binary? {
        WalkBinary(x);
      } else if x.IfExpr? {
        WalkIfExpr(x);
      } else if x.Selector? {
        WalkSelector(x);
      } else if x.Call? {
        WalkCallExpr(x.call);
      } else if x.Paren? {
        WalkParen(x);
      } else if x.Quant? {
        WalkQuantExpr(x.quant);
      } else if x.ListExpr? {
        WalkListExpr(x.elts);
      } else if x.ListIfItem? {
        WalkListIfItem(x.listIf);
      } else {
        WalkOtherKind(x);
      }
    }

    method WalkOtherKind(x: Expr)
      modifies this
      ensures Wrote(OtherKindShape(old(Shape(pieces)), x), 0)
      decreases x, 2
    {
      hide Orderly, Shape, LaidOut, All, ExprShape, ClausesShape, ConfigIfShape, ClauseShape, SchemaExprShape,
        ConfigShape, CheckShape, LambdaShape, SubscriptShape, KeywordShape, ArgumentsShape, LiteralShape,
        OperationShape;
      if x.ListComp? {
        WalkListComp(x);
      } else if x.Starred? {
        WalkStarred(x);
      } else if x.DictComp? {
        WalkDictComp(x);
      } else if x.ConfigIfEntry? {
        WalkConfigIfEntry(x.configIf);
      } else if x.Comp? {
        WalkCompClause(x.clause);
      } else if x.Schema? {
        WalkSchemaExpr(x.schema);
      } else if x.Config? {
        WalkConfigExpr(x.items);
      } else if x.Check? {
        WalkCheckExpr(x.check);
      } else if x.Lambda? {
        WalkLambdaExpr(x.lambda);
      } else if x.Sub? {
        WalkSubscript(x.subscript);
      } else if x.KeywordArg? {
        WalkKeyword(x.keyword);
      } else if x.Args? {
        WalkArguments(x.arguments);
      } else {
        WalkLiteral(x);
      }
    }

    method WalkLiteral(x: Expr)
      modifies this
      ensures Wrote(LiteralShape(old(Shape(pieces)), x), 0)
      decreases x, 1
    {
      hide Orderly, Shape, LaidOut, All, ExprShape, ComparatorsShape, NumberText, StringText, NameConstant.Symbol,
        JoinedShape, QuoteText;
      if x.Compare? {
        WalkCompare(x);
      } else if x.NumberLit? {
        WalkNumberLit(x);
      } else if x.StringLit? {
        Write(StringText(x.str));
      } else if x.NameConstantLit? {
        Write(x.constant.Symbol());
      } else if x.JoinedString? {
        WalkJoinedString(x);
      } else if x.FormattedValue? {
        WalkFormattedValue(x);
      }
    }

    method WalkUnary(x: Expr)
      requires x.Unary?
      modifies this
      ensures Wrote(ExprKindShape(old(Shape(pieces)), x), 0)
      decreases x, 0
    {
      hide Orderly, Shape, LaidOut, All, ExprShape;
      Write(x.unaryOp.Symbol());
      if x.unaryOp.Not? {
        Write(" ");
      }
      WalkExpr(x.operand);
    }

    method WalkBinary(x: Expr)
      requires x.Binary?
      modifies this
      ensures Wrote(ExprKindShape(old(Shape(pieces)), x), 0)
      decreases x, 0
    {
      hide Orderly, Shape, LaidOut, All, ExprShape, BinOrCmpOp.Symbol;
      WalkExpr(x.left);
      Write(" ");
      Write(x.op.Symbol());
      Write(" ");
      WalkExpr(x.right);
    }

    method WalkIfExpr(x: Expr)
      requires x.IfExpr?
      modifies this
      ensures Wrote(ExprKindShape(old(Shape(pieces)), x), 0)
      decreases x, 0
    {
      hide Orderly, Shape, LaidOut, All, ExprShape;
      WalkExpr(x.body);
      Write(" if ");
      WalkExpr(x.cond);
      Write(" else ");
      WalkExpr(x.orelse);
    }

    method WalkSelector(x: Expr)
      requires x.Selector?
      modifies this
      ensures Wrote(ExprKindShape(old(Shape(pieces)), x), 0)
      decreases x, 0
    {
      hide Orderly, Shape, LaidOut, All, ExprShape, Name;
      WalkExpr(x.value);
      Write(if x.hasQuestion then "?." else ".");
      WalkIdentifier(x.attr);
    }

    method WalkParen(x: Expr)
      requires x.Paren?
      modifies this
      ensures Wrote(ExprKindShape(old(Shape(pieces)), x), 0)
      decreases x, 0
    {
      hide Orderly, Shape, LaidOut, All, ExprShape;
      Write("(");
      WalkExpr(x.expr);
      Write(")");
    }

    method WalkCallExpr(call: CallExpr)
      modifies this
      ensures Wrote(CallShape(old(Shape(pieces)), call), 0)
      decreases call
    {
      hide Orderly, Shape, LaidOut, All, ExprShape, ExprsShape, CallArgumentsShape;
      WalkExpr(call.func);
      Write("(");
      Exprs(call.args, Comma);
      KeywordArguments(call.args != [], call.keywords);
      Write(")");
    }

    /** `write_args_and_kwargs`, after the positional arguments. */
    method KeywordArguments(more: bool, kwargs: seq<Keyword>)
      modifies this
      ensures Wrote(CallArgumentsShape(old(Shape(pieces)), more, kwargs), 0)
      decreases kwargs, 1
    {
      hide Orderly, Shape, LaidOut, All, KeywordsShape;
      if more && kwargs != [] {
        Write(", ");
      }
      Keywords(kwargs);
    }

    method Keywords(xs: seq<Keyword>)
      modifies this
      ensures Wrote(KeywordsShape(old(Shape(pieces)), xs), 0)
      decreases xs, 0
    {
      hide Orderly, Shape, LaidOut, All, KeywordShape, KeywordsShape;
      KeywordsStart(old(Shape(pieces)), xs);
      for i := 0 to |xs|
        invariant Wrote(KeywordsShape(old(Shape(pieces)), xs[..i]), 0)
      {
        if i > 0 { Write(", "); }
        WalkKeyword(xs[i]);
        KeywordsStep(old(Shape(pieces)), xs, i);
      }
      assert xs[..|xs|] == xs;
    }

    method WalkKeyword(keyword: Keyword)
      modifies this
      ensures Wrote(KeywordShape(old(Shape(pieces)), keyword), 0)
      decreases keyword
    {
      hide Orderly, Shape, LaidOut, All, OptionShape, Name;
      WalkIdentifier(keyword.arg);
      Optional("=", keyword.value);
    }

    method WalkQuantExpr(q: QuantExpr)
      modifies this
      ensures Wrote(QuantShape(old(Shape(pieces)), q), 0)
      decreases q
    {
      hide Orderly, Shape, LaidOut, All, ExprShape, OptionShape, IdentifiersShape, QuantOperation.Symbol;
      Write(q.op.Symbol());
      Write(" ");
      Identifiers(q.variables);
      Write(" in ");
      WalkExpr(q.target);
      Write(" {");
      IndentWithNewline();
      WalkExpr(q.test);
      Optional(" if ", q.ifCond);
      DedentWithNewline();
      Write("}");
    }

    method WalkListExpr(elts: seq<Node<Expr>>)
      modifies this
      ensures Wrote(ListShape(old(Shape(pieces)), elts), 0)
      decreases elts, 1
    {
      hide Orderly, Shape, LaidOut, All, ExprShape, ExprsShape, OneLine;
      var oneLine := InOneLine(ExprLines(elts), StartsConditional(elts));
      Write("[");
      OpenItems(oneLine, ExprLines(elts), StartsConditional(elts));
      Exprs(elts, Item(oneLine));
      ExprsAnyItem(O(old(Shape(pieces)) + [Tok("[")], ExprLines(elts), StartsConditional(elts)), elts, oneLine);
      CloseItems(oneLine, old(opens));
      Write("]");
    }

    method WalkListIfItem(x: ListIfItemExpr)
      modifies this
      ensures Wrote(ListIfShape(old(Shape(pieces)), x), 0)
      decreases x, 1
    {
      hide Orderly, Shape, LaidOut, All, ExprShape, ExprsShape;
      ListIfHead(x);
      match x.orelse {
        case NoListElse =>
        case ListElse(elts) =>
          Write("else:");
          IndentWithNewline();
          Exprs(elts, Line);
          LeaveIndent();
        case ListElif(line, listIf) =>
          Write("el");
          WriteAstComments(AtNode(line));
          WalkListIfItem(listIf);
      }
    }

    /** The condition and the items. */
    method ListIfHead(x: ListIfItemExpr)
      modifies this
      ensures Wrote(N(D(ExprsShape(N(I(W(ExprShape(W(old(Shape(pieces)), "if "), x.ifCond), ":"))), x.exprs, Line))), 0)
      decreases x, 0
    {
      hide Orderly, Shape, LaidOut, All, ExprShape, ExprsShape;
      Write("if ");
      WalkExpr(x.ifCond);
      Write(":");
      IndentWithNewline();
      Exprs(x.exprs, Line);
      DedentWithNewline();
    }

    method WalkListComp(x: Expr)
      requires x.ListComp?
      modifies this
      ensures Wrote(OtherKindShape(old(Shape(pieces)), x), 0)
      decreases x, 0
    {
      hide Orderly, Shape, LaidOut, All, ExprShape, ClausesShape;
      Write("[");
      WalkExpr(x.elt);
      Clauses(x.listGenerators);
      Write("]");
    }

    method WalkStarred(x: Expr)
      requires x.Starred?
      modifies this
      ensures Wrote(OtherKindShape(old(Shape(pieces)), x), 0)
      decreases x, 0
    {
      hide Orderly, Shape, LaidOut, All, ExprShape;
      Write("*");
      WalkExpr(x.starred);
    }

    method WalkDictComp(x: Expr)
      requires x.DictComp?
      modifies this
      ensures Wrote(OtherKindShape(old(Shape(pieces)), x), 0)
      decreases x, 0
    {
      hide Orderly, Shape, LaidOut, All, ExprShape, ClausesShape, OperationShape;
      Write("{");
      WalkExpr(x.dictKey);
      WriteOperation(x.operation);
      WalkExpr(x.dictValue);
      Clauses(x.dictGenerators);
      Write("}");
    }

    method WriteOperation(operation: EntryOperation)
      modifies this
      ensures Wrote(OperationShape(old(Shape(pieces)), operation), 0)
      decreases operation
    {
      hide Orderly, Shape, LaidOut, All;
      if !operation.Union? {
        Write(" ");
      }
      Write(operation.Symbol());
      Write(" ");
    }

    method WalkConfigIfEntry(x: ConfigIfEntryExpr)
      modifies this
      ensures Wrote(ConfigIfShape(old(Shape(pieces)), x), 0)
      decreases x, 1
    {
      hide Orderly, Shape, LaidOut, All, ExprShape, EntriesShape;
      ConfigIfHead(x);
      match x.orelse {
        case NoConfigElse =>
        case ConfigElse(items) =>
          Write("else:");
          IndentWithNewline();
          Entries(items, Line);
          LeaveIndent();
        case ConfigElif(line, configIf) =>
          Write("el");
          WriteAstComments(AtNode(line));
          WalkConfigIfEntry(configIf);
      }
    }

    /** The condition and the entries. */
    method ConfigIfHead(x: ConfigIfEntryExpr)
      modifies this
      ensures Wrote(
        N(D(EntriesShape(N(I(W(ExprShape(W(old(Shape(pieces)), "if "), x.ifCond), ":"))), x.items, Line))), 0)
      decreases x, 0
    {
      hide Orderly, Shape, LaidOut, All, ExprShape, EntriesShape;
      Write("if ");
      WalkExpr(x.ifCond);
      Write(":");
      IndentWithNewline();
      Entries(x.items, Line);
      DedentWithNewline();
    }

    method Clauses(xs: seq<CompClause>)
      modifies this
      ensures Wrote(ClausesShape(old(Shape(pieces)), xs), 0)
      decreases xs
    {
      hide Orderly, Shape, LaidOut, All, ClauseShape;
      for i := 0 to |xs|
        invariant Wrote(ClausesShape(old(Shape(pieces)), xs[..i]), 0)
      {
        WalkCompClause(xs[i]);
        assert xs[..i + 1][..i] == xs[..i];
      }
      assert xs[..|xs|] == xs;
    }

    method WalkCompClause(clause: CompClause)
      modifies this
      ensures Wrote(ClauseShape(old(Shape(pieces)), clause), 0)
      decreases clause
    {
      hide Orderly, Shape, LaidOut, All, ExprShape, IdentifiersShape, IfsShape;
      Write(" for ");
      Identifiers(clause.targets);
      Write(" in ");
      WalkExpr(clause.iter);
      Ifs(clause.ifs);
    }

    method Ifs(xs: seq<Node<Expr>>)
      modifies this
      ensures Wrote(IfsShape(old(Shape(pieces)), xs), 0)
      decreases xs
    {
      hide Orderly, Shape, LaidOut, All, ExprShape;
      for i := 0 to |xs|
        invariant Wrote(IfsShape(old(Shape(pieces)), xs[..i]), 0)
      {
        Write(" if ");
        WalkExpr(xs[i]);
        assert xs[..i + 1][..i] == xs[..i];
      }
      assert xs[..|xs|] == xs;
    }

    method WalkSchemaExpr(x: SchemaExpr)
      modifies this
      ensures Wrote(SchemaExprShape(old(Shape(pieces)), x), 0)
      decreases x
    {
      hide Orderly, Shape, LaidOut, All, ExprShape, ExprsShape, CallArgumentsShape, Name;
      WalkIdentifier(x.name);
      if x.args != [] || x.kwargs != [] {
        Write("(");
        Exprs(x.args, Comma);
        KeywordArguments(x.args != [], x.kwargs);
        Write(")");
      }
      Write(" ");
      WalkExpr(x.config);
    }

    method WalkConfigExpr(items: seq<Node<ConfigEntry>>)
      modifies this
      ensures Wrote(ConfigShape(old(Shape(pieces)), items), 0)
      decreases items, 1
    {
      hide Orderly, Shape, LaidOut, All, ExprShape, EntriesShape, OneLine, IsBlock;
      var oneLine := InOneLine(EntryLines(items), IsBlock(items));
      Write("{");
      if items != [] {
        OpenItems(oneLine, EntryLines(items), IsBlock(items));
        Entries(items, Item(oneLine));
        EntriesAnyItem(O(old(Shape(pieces)) + [Tok("{")], EntryLines(items), IsBlock(items)), items, oneLine);
        CloseItems(oneLine, old(opens));
      }
      Write("}");
    }

    method Entries(xs: seq<Node<ConfigEntry>>, sep: Sep)
      requires Suits(sep)
      modifies this
      ensures Wrote(EntriesShape(old(Shape(pieces)), xs, sep), 0)
      decreases xs, 0
    {
      hide Orderly, Shape, LaidOut, All, EntryShape, SepShape;
      for i := 0 to |xs|
        invariant Wrote(EntriesShape(old(Shape(pieces)), xs[..i], sep), 0)
      {
        if i > 0 { WriteSep(sep); }
        WriteEntry(xs[i]);
        assert xs[..i + 1][..i] == xs[..i];
      }
      assert xs[..|xs|] == xs;
    }

    method WriteEntry(item: Node<ConfigEntry>)
      modifies this
      ensures Wrote(EntryShape(old(Shape(pieces)), item), 0)
      decreases item
    {
      hide Orderly, Shape, LaidOut, All, ExprShape, KeyShape, OperationShape, ClosingBraces, TypePrinter.IntText;
      var entry := item.node;
      if entry.key.Some? {
        WriteConfigKey(entry.key.value);
        if entry.insertIndex >= 0 {
          Write("[" + TypePrinter.IntText(entry.insertIndex) + "]");
        }
        WriteOperation(entry.operation);
        WalkExpr(entry.value);
        Write(ClosingBraces(entry.key.value.node));
      } else {
        if !entry.value.node.ConfigIfEntry? {
          Write("**");
        }
        WalkExpr(entry.value);
      }
    }

    method WriteConfigKey(key: Node<Expr>)
      modifies this
      ensures Wrote(KeyShape(old(Shape(pieces)), key), 0)
      decreases key, 1
    {
      hide Orderly, Shape, LaidOut, All, ExprShape, Nested, Braced;
      if key.node.Ident? {
        WriteAstComments(AtNode(key.line));
        if Nested(key.node) {
          Write(Braced(key.node.identifier.names));
        } else {
          WalkExpr(key);
        }
      } else {
        WalkExpr(key);
      }
    }

    method WalkCheckExpr(check: CheckExpr)
      modifies this
      ensures Wrote(CheckShape(old(Shape(pieces)), check), 0)
      decreases check
    {
      hide Orderly, Shape, LaidOut, All, ExprShape, OptionShape;
      WalkExpr(check.test);
      Optional(" if ", check.ifCond);
      Optional(", ", check.msg);
    }

    method LambdaHead(x: LambdaExpr)
      modifies this
      ensures Wrote(LambdaHeadShape(old(Shape(pieces)), x), 0)
      decreases x, 0
    {
      hide Orderly, Shape, LaidOut, All, ArgumentsShape;
      Write("lambda");
      if x.args.Some? {
        Write(" ");
        WalkArguments(x.args.value);
      }
      if x.returnType.Some? {
        Write(" ");
        Write("->");
        Write(" ");
        Write(x.returnType.value);
      }
    }

    method WalkLambdaExpr(x: LambdaExpr)
      modifies this
      ensures Wrote(LambdaShape(old(Shape(pieces)), x), 0)
      decreases x, 1
    {
      hide Orderly, Shape, LaidOut, All, LambdaHeadShape, StmtsShape;
      LambdaHead(x);
      Write(" ");
      Write("{");
      WriteNewlineWithoutFill();
      EnterIndent();
      Stmts(x.body);
      LeaveIndent();
      WriteNewline();
      Write("}");
    }

    method WalkSubscript(x: Subscript)
      modifies this
      ensures Wrote(SubscriptShape(old(Shape(pieces)), x), 0)
      decreases x
    {
      hide Orderly, Shape, LaidOut, All, ExprShape, BoundShape;
      WalkExpr(x.value);
      if x.hasQuestion {
        Write("?");
      }
      Write("[");
      if x.index.Some? {
        WalkExpr(x.index.value);
      } else {
        Bound(x.lower);
        Write(":");
        Bound(x.upper);
        Write(":");
        Bound(x.step);
      }
      Write("]");
    }

    method Bound(x: Option<Node<Expr>>)
      modifies this
      ensures Wrote(BoundShape(old(Shape(pieces)), x), 0)
      decreases x
    {
      hide Orderly, Shape, LaidOut, All, ExprShape;
      if x.Some? {
        WalkExpr(x.value);
      }
    }

    method WalkArguments(x: Arguments)
      modifies this
      ensures Wrote(ArgumentsShape(old(Shape(pieces)), x), 0)
      decreases x
    {
      hide Orderly, Shape, LaidOut, All, ParameterShape;
      for i := 0 to ParameterCount(x)
        invariant Wrote(ParametersShape(old(Shape(pieces)), x, i), 0)
      {
        if i > 0 { Write(", "); }
        WalkParameter(x, i);
      }
    }

    method WalkParameter(x: Arguments, i: nat)
      requires i < ParameterCount(x)
      modifies this
      ensures Wrote(ParameterShape(old(Shape(pieces)), x, i), 0)
      decreases x, i
    {
      hide Orderly, Shape, LaidOut, All, OptionShape, Name;
      WalkIdentifier(x.args[i]);
      if x.annotations[i].Some? {
        Write(": " + x.annotations[i].value);
      }
      Optional(" = ", x.defaults[i]);
    }

    method WalkCompare(x: Expr)
      requires x.Compare?
      modifies this
      ensures Wrote(LiteralShape(old(Shape(pieces)), x), 0)
      decreases x, 0
    {
      hide Orderly, Shape, LaidOut, All, ExprShape, ComparatorsShape;
      WalkExpr(x.first);
      Comparators(x.ops, x.comparators);
    }

    /** Operators and comparators are zipped. */
    method Comparators(ops: seq<CmpOp>, xs: seq<Node<Expr>>)
      modifies this
      ensures Wrote(ComparatorsShape(old(Shape(pieces)), ops, xs), 0)
      decreases xs
    {
      hide Orderly, Shape, LaidOut, All, ExprShape, CmpOp.Symbol;
      for i := 0 to |xs|
        invariant Wrote(ComparatorsShape(old(Shape(pieces)), ops, xs[..i]), 0)
      {
        if i < |ops| {
          Write(" ");
          Write(ops[i].Symbol());
          Write(" ");
          WalkExpr(xs[i]);
        }
        assert xs[..i + 1][..i] == xs[..i];
      }
      assert xs[..|xs|] == xs;
    }

    method WalkNumberLit(x: Expr)
      requires x.NumberLit?
      modifies this
      ensures Wrote(LiteralShape(old(Shape(pieces)), x), 0)
      decreases x, 0
    {
      hide Orderly, Shape, LaidOut, All, NumberText, Suffix.Text;
      Write(NumberText(x.number));
      if x.suffix.Some? {
        Write(x.suffix.value.Text());
      }
    }

    method WalkJoinedString(x: Expr)
      requires x.JoinedString?
      modifies this
      ensures Wrote(LiteralShape(old(Shape(pieces)), x), 0)
      decreases x, 0
    {
      hide Orderly, Shape, LaidOut, All, QuoteText, JoinedShape;
      Write(QuoteText(x.isLongString));
      JoinedValues(x.values);
      Write(QuoteText(x.isLongString));
    }

    method JoinedValues(xs: seq<Node<Expr>>)
      modifies this
      ensures Wrote(JoinedShape(old(Shape(pieces)), xs), 0)
      decreases xs
    {
      hide Orderly, Shape, LaidOut, All, JoinedValueShape;
      for i := 0 to |xs|
        invariant Wrote(JoinedShape(old(Shape(pieces)), xs[..i]), 0)
      {
        JoinedValue(xs[i]);
        assert xs[..i + 1][..i] == xs[..i];
      }
      assert xs[..|xs|] == xs;
    }

    method JoinedValue(value: Node<Expr>)
      modifies this
      ensures Wrote(JoinedValueShape(old(Shape(pieces)), value), 0)
      decreases value, 1
    {
      hide Orderly, Shape, LaidOut, All, ExprShape, TypePrinter.Escape;
      match value.node {
        case StringLit(str) => Write(TypePrinter.Escape(str.value));
        case _ => WalkExpr(value);
      }
    }

    method WalkFormattedValue(x: Expr)
      requires x.FormattedValue?
      modifies this
      ensures Wrote(LiteralShape(old(Shape(pieces)), x), 0)
      decreases x, 0
    {
      hide Orderly, Shape, LaidOut, All, ExprShape;
      Write("${");
      WalkExpr(x.formatted);
      if x.formatSpec.Some? {
        Write(": " + x.formatSpec.value);
      }
      Write("}");
    }

    // ----- modules (lib.rs, node.rs) -----

    /** `walk_module`, after the comments are queued. */
    method WalkModule(module_: Module)
      modifies this
      ensures Wrote(ModuleShape(old(Shape(pieces)), module_), 0)
    {
      hide Orderly, Shape, LaidOut, All, StmtsShape;
      if module_.doc != "" {
        Write(module_.doc);
        WriteNewline();
      }
      Stmts(module_.body);
    }

    /** The comments after the last node. */
    method WriteRest()
      modifies this
      ensures indent == old(indent) && opens == old(opens) && comments == [] && Shape(pieces) == old(Shape(pieces))
      ensures All() == old(All()) && (old(LaidOut()) ==> LaidOut())
      ensures old(InOrder(pieces, lastAstLine, comments)) ==> Placed(pieces)
    {
      hide InOrder, Shape, NotesOf, LayoutOf;
      while comments != []
        invariant indent == old(indent) && opens == old(opens) && Shape(pieces) == old(Shape(pieces))
        invariant All() == old(All()) && (old(LaidOut()) ==> LaidOut())
        invariant old(InOrder(pieces, lastAstLine, comments)) ==> InOrder(pieces, lastAstLine, comments)
      {
        var piece := Rest(comments[0], indent);
        ShapeAppend(pieces, piece);
        LayoutAppend(pieces, piece, All());
        if InOrder(pieces, lastAstLine, comments) { RestKeepsOrder(pieces, lastAstLine, comments, indent); }
        assert comments == [comments[0]] + comments[1..];
        pieces := pieces + [piece];
        comments := comments[1..];
        assert All() == old(All());
      }
      InOrderIsPlaced(pieces, lastAstLine, comments);
    }

    /** `write_module`. */
    method WriteModule(module_: Module)
      requires comments == []
      modifies this
      ensures indent == old(indent) && opens == old(opens) && comments == []
      ensures Shape(pieces) == ModuleShape(old(Shape(pieces)), module_)
      ensures NotesOf(pieces) == old(NotesOf(pieces)) + module_.comments
      ensures old(LayoutOf(pieces, NotesOf(pieces) + module_.comments) == Layout(indent, opens)) ==> LaidOut()
      ensures old(Orderly(pieces, lastAstLine, module_.comments)) ==> Placed(pieces)
    {
      hide InOrder, Shape, NotesOf, LayoutOf, Placed, ModuleShape;
      comments := module_.comments;
      WalkModule(module_);
      WriteRest();
      assert All() == NotesOf(pieces) + [];
    }
  }

  /** `print_ast_module`: the code is the module's whatever its comments are, every line is indented by its
      place, lists and configurations are on one line by the rule, every comment is printed once and in
      order, and each stands directly before the first node that starts on its line or later. */
  method PrintAstModule(module_: Module) returns (text: string, pieces: seq<Piece>)
    ensures text == Render(pieces)
    ensures Shape(pieces) == ModuleShape([], module_)
    ensures LayoutOf(pieces, module_.comments) == Layout(0, [])
    ensures NotesOf(pieces) == module_.comments
    ensures Sorted(module_.comments) && (forall c | c in module_.comments :: c.line > 0) ==> Placed(pieces)
  {
    hide Shape, NotesOf, LayoutOf, Orderly, Placed, Sorted, Render, ModuleShape;
    var printer := new Printer();
    NothingWritten(module_.comments);
    assert [] + module_.comments == module_.comments;
    printer.WriteModule(module_);
    pieces := printer.pieces;
    text := Render(pieces);
    assert [] + module_.comments + [] == module_.comments;
  }
}
