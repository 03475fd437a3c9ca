/** Whether the pretty printer writes every statement of a module, kclvm/ast_pretty/src/node.rs: it does
    unless an else block starts with an if statement and goes on. */
module PrintComplete {
  import opened PrettyAst
  import opened PrintSpec
  import opened Wrappers
  import TypePrinter

  /** The statements written, in order. */
  function Marks(a: S): seq<Node<Stmt>>
  {
    if a == [] then []
    else
      var last := a[|a| - 1];
      Marks(a[..|a| - 1]) + if last.Visit? && last.at.AtStmt? then [last.at.stmt] else []
  }

  // ----- the statements of a tree -----

  /** The statements of a tree in source order, at every depth, and in how many else blocks an if
      statement comes first and others follow. Parameters and comparators count as far as they are
      paired. */
  datatype Told = Told(stmts: seq<Node<Stmt>>, cut: nat)

  function TellStmts(t: Told, xs: seq<Node<Stmt>>): (r: Told)
    ensures |r.stmts| >= |t.stmts|
    decreases xs
  { if xs == [] then t else TellStmtNode(TellStmts(t, xs[..|xs| - 1]), xs[|xs| - 1]) }

  function TellStmtNode(t: Told, x: Node<Stmt>): (r: Told)
    ensures |r.stmts| >= |t.stmts|
    decreases x
  { TellStmt(t.(stmts := t.stmts + [x]), x.node) }

  function TellStmt(t: Told, stmt: Stmt): (r: Told)
    ensures |r.stmts| >= |t.stmts|
    decreases stmt
  {
    match stmt
    case TypeAlias(_, _) => t
    case ExprStmt(exprs) => TellExprs(t, exprs)
    case Unification(_, value) => TellSchemaExpr(t, value)
    case Assign(_, _, value) => TellExpr(t, value)
    case AugAssign(_, _, value) => TellExpr(t, value)
    case Assert(check) => TellCheck(t, check)
    case If(ifStmt) => TellIf(t, ifStmt)
    case Import(_, _) => t
    case Attr(attr) => TellOption(TellCalls(t, attr.decorators), attr.value)
    case SchemaDef(schema) => TellSchema(t, schema)
    case RuleDef(rule) => TellRule(t, rule)
  }

  /** An if statement that starts an else block continues the chain; what follows it is one more cut. */
  function TellIf(t: Told, s: IfStmt): (r: Told)
    ensures |r.stmts| >= |t.stmts|
    decreases s
  {
    var b := TellStmts(TellExpr(t, s.cond), s.body);
    if s.orelse == [] then b
    else if s.orelse[0].node.If? then
      var c := TellIf(b, s.orelse[0].node.ifStmt);
      if |s.orelse| == 1 then c
      else
        var rest := TellStmts(c, s.orelse[1..]);
        rest.(cut := rest.cut + 1)
    else TellStmts(b, s.orelse)
  }

  function TellSchema(t: Told, s: SchemaStmt): (r: Told)
    ensures |r.stmts| >= |t.stmts|
    decreases s
  {
    var b := TellArgumentsOption(TellCalls(t, s.decorators), s.args);
    TellChecks(TellStmts(TellIndex(b, s.index), s.body), s.checks)
  }

  function TellRule(t: Told, x: RuleStmt): (r: Told)
    ensures |r.stmts| >= |t.stmts|
    decreases x
  { TellChecks(TellArgumentsOption(TellCalls(t, x.decorators), x.args), x.checks) }

  function TellCalls(t: Told, xs: seq<CallExpr>): (r: Told)
    ensures |r.stmts| >= |t.stmts|
    decreases xs
  { if xs == [] then t else TellCall(TellCalls(t, xs[..|xs| - 1]), xs[|xs| - 1]) }

  function TellCall(t: Told, call: CallExpr): (r: Told)
    ensures |r.stmts| >= |t.stmts|
    decreases call
  { TellKeywords(TellExprs(TellExpr(t, call.func), call.args), call.keywords) }

  function TellKeywords(t: Told, xs: seq<Keyword>): (r: Told)
    ensures |r.stmts| >= |t.stmts|
    decreases xs
  { if xs == [] then t else TellKeyword(TellKeywords(t, xs[..|xs| - 1]), xs[|xs| - 1]) }

  function TellKeyword(t: Told, x: Keyword): (r: Told)
    ensures |r.stmts| >= |t.stmts|
    decreases x
  { TellOption(t, x.value) }

  function TellArgumentsOption(t: Told, x: Option<Arguments>): (r: Told)
    ensures |r.stmts| >= |t.stmts|
    decreases x
  { match x case Some(args) => TellArguments(t, args, ParameterCount(args)) case None => t }

  function TellArguments(t: Told, x: Arguments, n: nat): (r: Told)
    requires n <= ParameterCount(x)
    ensures |r.stmts| >= |t.stmts|
    decreases x, n
  { if n == 0 then t else TellOption(TellArguments(t, x, n - 1), x.defaults[n - 1]) }

  function TellChecks(t: Told, xs: seq<CheckExpr>): (r: Told)
    ensures |r.stmts| >= |t.stmts|
    decreases xs
  { if xs == [] then t else TellCheck(TellChecks(t, xs[..|xs| - 1]), xs[|xs| - 1]) }

  function TellCheck(t: Told, x: CheckExpr): (r: Told)
    ensures |r.stmts| >= |t.stmts|
    decreases x
  { TellOption(TellOption(TellExpr(t, x.test), x.ifCond), x.msg) }

  function TellExprs(t: Told, xs: seq<Node<Expr>>): (r: Told)
    ensures |r.stmts| >= |t.stmts|
    decreases xs
  { if xs == [] then t else TellExpr(TellExprs(t, xs[..|xs| - 1]), xs[|xs| - 1]) }

  function TellExpr(t: Told, x: Node<Expr>): (r: Told)
    ensures |r.stmts| >= |t.stmts|
    decreases x
  { TellKind(t, x.node) }

  function TellOption(t: Told, x: Option<Node<Expr>>): (r: Told)
    ensures |r.stmts| >= |t.stmts|
    decreases x
  { match x case Some(x) => TellExpr(t, x) case None => t }

  function TellKind(t: Told, x: Expr): (r: Told)
    ensures |r.stmts| >= |t.stmts|
    decreases x
  {
    match x
    case Unary(_, operand) => TellExpr(t, operand)
    case Binary(left, _, right) => TellExpr(TellExpr(t, left), right)
    case IfExpr(body, cond, orelse) => TellExpr(TellExpr(TellExpr(t, body), cond), orelse)
    case Selector(value, _, _) => TellExpr(t, value)
    case Call(call) => TellCall(t, call)
    case Paren(expr) => TellExpr(t, expr)
    case Quant(q) => TellOption(TellExpr(TellExpr(t, q.target), q.test), q.ifCond)
    case ListExpr(elts) => TellExprs(t, elts)
    case ListIfItem(listIf) => TellListIf(t, listIf)
    case ListComp(elt, generators) => TellClauses(TellExpr(t, elt), generators)
    case Starred(value) => TellExpr(t, value)
    case DictComp(key, _, value, generators) => TellClauses(TellExpr(TellExpr(t, key), value), generators)
    case ConfigIfEntry(configIf) => TellConfigIf(t, configIf)
    case Comp(clause) => TellClause(t, clause)
    case Schema(schema) => TellSchemaExpr(t, schema)
    case Config(items) => TellEntries(t, items)
    case Check(check) => TellCheck(t, check)
    case Lambda(lambda) => TellLambda(t, lambda)
    case Sub(subscript) => TellSubscript(t, subscript)
    case KeywordArg(keyword) => TellKeyword(t, keyword)
    case Args(arguments) => TellArguments(t, arguments, ParameterCount(arguments))
    case Compare(first, ops, comparators) => TellComparators(TellExpr(t, first), ops, comparators)
    case JoinedString(_, values) => TellExprs(t, values)
    case FormattedValue(value, _) => TellExpr(t, value)
    case _ => t
  }

  function TellListIf(t: Told, x: ListIfItemExpr): (r: Told)
    ensures |r.stmts| >= |t.stmts|
    decreases x
  {
    var b := TellExprs(TellExpr(t, x.ifCond), x.exprs);
    match x.orelse
    case NoListElse => b
    case ListElse(elts) => TellExprs(b, elts)
    case ListElif(_, listIf) => TellListIf(b, listIf)
  }

  function TellConfigIf(t: Told, x: ConfigIfEntryExpr): (r: Told)
    ensures |r.stmts| >= |t.stmts|
    decreases x
  {
    var b := TellEntries(TellExpr(t, x.ifCond), x.items);
    match x.orelse
    case NoConfigElse => b
    case ConfigElse(items) => TellEntries(b, items)
    case ConfigElif(_, configIf) => TellConfigIf(b, configIf)
  }

  function TellEntries(t: Told, xs: seq<Node<ConfigEntry>>): (r: Told)
    ensures |r.stmts| >= |t.stmts|
    decreases xs
  { if xs == [] then t else TellEntry(TellEntries(t, xs[..|xs| - 1]), xs[|xs| - 1]) }

  function TellEntry(t: Told, x: Node<ConfigEntry>): (r: Told)
    ensures |r.stmts| >= |t.stmts|
    decreases x
  { TellExpr(TellOption(t, x.node.key), x.node.value) }

  function TellClauses(t: Told, xs: seq<CompClause>): (r: Told)
    ensures |r.stmts| >= |t.stmts|
    decreases xs
  { if xs == [] then t else TellClause(TellClauses(t, xs[..|xs| - 1]), xs[|xs| - 1]) }

  function TellClause(t: Told, x: CompClause): (r: Told)
    ensures |r.stmts| >= |t.stmts|
    decreases x
  { TellExprs(TellExpr(t, x.iter), x.ifs) }

  function TellSchemaExpr(t: Told, x: SchemaExpr): (r: Told)
    ensures |r.stmts| >= |t.stmts|
    decreases x
  { TellExpr(TellKeywords(TellExprs(t, x.args), x.kwargs), x.config) }

  function TellLambda(t: Told, x: LambdaExpr): (r: Told)
    ensures |r.stmts| >= |t.stmts|
    decreases x
  { TellStmts(TellArgumentsOption(t, x.args), x.body) }

  function TellSubscript(t: Told, x: Subscript): (r: Told)
    ensures |r.stmts| >= |t.stmts|
    decreases x
  {
    var b := TellExpr(t, x.value);
    match x.index
    case Some(index) => TellExpr(b, index)
    case None => TellOption(TellOption(TellOption(b, x.lower), x.upper), x.step)
  }

  function TellComparators(t: Told, ops: seq<CmpOp>, xs: seq<Node<Expr>>): (r: Told)
    ensures |r.stmts| >= |t.stmts|
    decreases xs
  {
    if xs == [] then t
    else
      var n := |xs| - 1;
      var b := TellComparators(t, ops, xs[..n]);
      if n < |ops| then TellExpr(b, xs[n]) else b
  }

  function TellIndex(t: Told, x: Option<IndexSignature>): (r: Told)
    ensures |r.stmts| >= |t.stmts|
    decreases x
  {
    match x case Some(index) => TellOption(t, index.value) case None => t
  }

  function ModuleStatements(module_: Module): Told { TellStmts(Told([], 0), module_.body) }

  // ----- writing against telling -----

  ghost predicate Agrees(a: S, t: Told)
  {
    if t.cut == 0 then Marks(a) == t.stmts else |Marks(a)| < |t.stmts|
  }

  lemma MarksAppend(a: S, piece: Piece)
    ensures Marks(a + [piece])
      == Marks(a) + if piece.Visit? && piece.at.AtStmt? then [piece.at.stmt] else []
  {
    assert (a + [piece])[..|a|] == a;
  }

  lemma SameMarks(a: S, piece: Piece, t: Told)
    requires Agrees(a, t) && !(piece.Visit? && piece.at.AtStmt?)
    ensures Agrees(a + [piece], t)
  {
    hide Marks;
    MarksAppend(a, piece);
    assert Marks(a + [piece]) == Marks(a);
  }

  /** Only reaching a statement adds one. */
  lemma WritesNoStatements()
    ensures forall a, t, text {:trigger W(a, text), Agrees(a, t)} | Agrees(a, t) :: Agrees(W(a, text), t)
    ensures forall a, t {:trigger B(a), Agrees(a, t)} | Agrees(a, t) :: Agrees(B(a), t)
    ensures forall a, t {:trigger N(a), Agrees(a, t)} | Agrees(a, t) :: Agrees(N(a), t)
    ensures forall a, t {:trigger F(a), Agrees(a, t)} | Agrees(a, t) :: Agrees(F(a), t)
    ensures forall a, t {:trigger I(a), Agrees(a, t)} | Agrees(a, t) :: Agrees(I(a), t)
    ensures forall a, t {:trigger D(a), Agrees(a, t)} | Agrees(a, t) :: Agrees(D(a), t)
    ensures forall a, t {:trigger C(a), Agrees(a, t)} | Agrees(a, t) :: Agrees(C(a), t)
    ensures forall a, t, lines, forced {:trigger O(a, lines, forced), Agrees(a, t)} | Agrees(a, t) ::
      Agrees(O(a, lines, forced), t)
    ensures forall a, t, line {:trigger V(a, AtNode(line)), Agrees(a, t)} | Agrees(a, t) ::
      Agrees(V(a, AtNode(line)), t)
    ensures forall a, t, sep {:trigger SepShape(a, sep), Agrees(a, t)} | Agrees(a, t) ::
      Agrees(SepShape(a, sep), t)
  {
    hide Agrees, Marks;
    forall a: S, t, piece: Piece | Agrees(a, t) && !(piece.Visit? && piece.at.AtStmt?)
      ensures Agrees(a + [piece], t)
    {
      SameMarks(a, piece, t);
    }
  }

  // What writes no statement.

  lemma StmtIsNoted(x: Node<Stmt>)
    ensures forall a, t {:trigger V(a, AtStmt(x)), Agrees(a, t)} | Agrees(a, t) ::
      Agrees(V(a, AtStmt(x)), t.(stmts := t.stmts + [x]))
  {
    hide Marks;
    forall a: S ensures Marks(V(a, AtStmt(x))) == Marks(a) + [x] { MarksAppend(a, Visit(AtStmt(x), [], 0)); }
  }

  lemma CutLosesSome(rest: seq<Node<Stmt>>)
    ensures forall a, t | Agrees(a, t) && rest != [] ::
      Agrees(a, Told(TellStmts(t, rest).stmts, TellStmts(t, rest).cut + 1))
  {
    if rest != [] {
      var n := |rest| - 1;
      hide TellStmt, Marks;
    }
  }

  predicate FirstGroup(x: Expr)
  {
    || x.Ident? || x.Unary? || x.Binary? || x.IfExpr? || x.Selector? || x.Call? || x.Paren? || x.Quant?
    || x.ListExpr? || x.ListIfItem?
  }

  predicate SecondGroup(x: Expr)
  {
    || x.ListComp? || x.Starred? || x.DictComp? || x.ConfigIfEntry? || x.Comp? || x.Schema? || x.Config?
    || x.Check? || x.Lambda? || x.Sub? || x.KeywordArg? || x.Args?
  }

  lemma {:induction false} IdentifiersHaveNone(xs: seq<Identifier>)
    ensures forall a, t {:trigger IdentifiersShape(a, xs), Agrees(a, t)} | Agrees(a, t) ::
      Agrees(IdentifiersShape(a, xs), t)
    decreases |xs|
  {
    hide Marks, Agrees;
    WritesNoStatements();
    if xs != [] { IdentifiersHaveNone(xs[..|xs| - 1]); }
  }

  lemma {:induction false} TargetsHaveNone(xs: seq<Identifier>, ty: Option<TypePrinter.Type>)
    ensures forall a, t {:trigger TargetsShape(a, xs, ty), Agrees(a, t)} | Agrees(a, t) ::
      Agrees(TargetsShape(a, xs, ty), t)
    decreases |xs|
  {
    hide Marks, Agrees;
    WritesNoStatements();
    if xs != [] { TargetsHaveNone(xs[..|xs| - 1], ty); }
  }

  lemma {:induction false} MixinNamesHaveNone(xs: seq<Identifier>)
    ensures forall a, t {:trigger MixinNamesShape(a, xs), Agrees(a, t)} | Agrees(a, t) ::
      Agrees(MixinNamesShape(a, xs), t)
    decreases |xs|
  {
    hide Marks, Agrees;
    WritesNoStatements();
    if xs != [] { MixinNamesHaveNone(xs[..|xs| - 1]); }
  }

  lemma {:induction false} MixinsHaveNone(xs: seq<Identifier>)
    ensures forall a, t {:trigger MixinsShape(a, xs), Agrees(a, t)} | Agrees(a, t) ::
      Agrees(MixinsShape(a, xs), t)
  {
    hide Marks, Agrees;
    WritesNoStatements();
    hide MixinNamesShape;
    MixinNamesHaveNone(xs);
  }

  lemma {:induction false} IndexKeyHasNone(x: IndexSignature)
    ensures forall a, t {:trigger IndexKeyShape(a, x), Agrees(a, t)} | Agrees(a, t) ::
      Agrees(IndexKeyShape(a, x), t)
  {
    hide Marks, Agrees;
    WritesNoStatements();
  }

  lemma {:induction false} OperationHasNone(x: EntryOperation)
    ensures forall a, t {:trigger OperationShape(a, x), Agrees(a, t)} | Agrees(a, t) ::
      Agrees(OperationShape(a, x), t)
  {
    hide Marks, Agrees;
    WritesNoStatements();
  }

  lemma StmtsAgree(xs: seq<Node<Stmt>>)
    ensures forall a, t {:trigger StmtsShape(a, xs), TellStmts(t, xs)} | Agrees(a, t) ::
      Agrees(StmtsShape(a, xs), TellStmts(t, xs))
  {
    hide Marks, Agrees;
    WritesNoStatements();
    if xs != [] {
      var n := |xs| - 1;
      StmtsAgree(xs[..n]);
      StmtNodeAgrees(xs[n]);
    }
  }

  lemma StmtNodeAgrees(x: Node<Stmt>)
    ensures forall a, t {:trigger StmtNodeShape(a, x), TellStmtNode(t, x)} | Agrees(a, t) ::
      Agrees(StmtNodeShape(a, x), TellStmtNode(t, x))
  {
    hide Marks, Agrees;
    WritesNoStatements();
    StmtIsNoted(x);
    StmtAgrees(x.node);
  }

  lemma StmtAgrees(x: Stmt)
    ensures forall a, t {:trigger StmtShape(a, x), TellStmt(t, x)} | Agrees(a, t) ::
      Agrees(StmtShape(a, x), TellStmt(t, x))
  {
    hide ExprsShape, SchemaExprShape, ExprShape, TargetsShape, CheckShape, IfStmtShape, SchemaAttrShape,
      SchemaStmtShape, RuleStmtShape, Marks, Agrees;
    WritesNoStatements();
    match x {
      case TypeAlias(_, _) =>
      case ExprStmt(exprs) => ExprsAgree(exprs, Comma);
      case Unification(_, value) => SchemaExprAgrees(value);
      case Assign(targets, ty, value) =>
        TargetsHaveNone(targets, ty);
        ExprAgrees(value);
      case AugAssign(_, _, value) => ExprAgrees(value);
      case Assert(check) => CheckAgrees(check);
      case If(ifStmt) => IfAgrees(ifStmt);
      case Import(_, _) =>
      case Attr(attr) => AttrAgrees(attr);
      case SchemaDef(schema) => SchemaAgrees(schema);
      case RuleDef(rule) => RuleAgrees(rule);
    }
  }

  lemma IfAgrees(s: IfStmt)
    ensures forall a, t {:trigger IfStmtShape(a, s), TellIf(t, s)} | Agrees(a, t) ::
      Agrees(IfStmtShape(a, s), TellIf(t, s))
  {
    hide StmtsShape, ExprShape, TellStmts, TellExpr, Marks, Agrees;
    WritesNoStatements();
    ExprAgrees(s.cond);
    StmtsAgree(s.body);
    if s.orelse != [] {
      if s.orelse[0].node.If? {
        IfAgrees(s.orelse[0].node.ifStmt);
        CutLosesSome(s.orelse[1..]);
      } else {
        StmtsAgree(s.orelse);
      }
    }
  }

  lemma DecoratorsAgree(xs: seq<CallExpr>)
    ensures forall a, t {:trigger DecoratorsShape(a, xs), TellCalls(t, xs)} | Agrees(a, t) ::
      Agrees(DecoratorsShape(a, xs), TellCalls(t, xs))
    decreases xs, 0
  {
    hide Marks, Agrees;
    WritesNoStatements();
    if xs != [] {
      var n := |xs| - 1;
      DecoratorsAgree(xs[..n]);
      CallAgrees(xs[n]);
    }
  }

  lemma DecoratedAgrees(xs: seq<CallExpr>)
    ensures forall a, t {:trigger DecoratedShape(a, xs), TellCalls(t, xs)} | Agrees(a, t) ::
      Agrees(DecoratedShape(a, xs), TellCalls(t, xs))
    decreases xs, 1
  {
    hide Marks, Agrees;
    WritesNoStatements();
    DecoratorsAgree(xs);
  }

  lemma AttrAgrees(attr: SchemaAttr)
    ensures forall a, t {:trigger SchemaAttrShape(a, attr), TellOption(TellCalls(t, attr.decorators), attr.value)}
      | Agrees(a, t) ::
      Agrees(SchemaAttrShape(a, attr), TellOption(TellCalls(t, attr.decorators), attr.value))
    decreases attr, 1
  {
    hide Marks, Agrees;
    WritesNoStatements();
    AttrTypeAgrees(attr);
    if attr.value.Some? { ExprAgrees(attr.value.value); }
  }

  lemma AttrTypeAgrees(attr: SchemaAttr)
    ensures forall a, t {:trigger AttrTypeShape(a, attr), TellCalls(t, attr.decorators)} | Agrees(a, t) ::
      Agrees(AttrTypeShape(a, attr), TellCalls(t, attr.decorators))
    decreases attr, 0
  {
    hide Marks, Agrees;
    WritesNoStatements();
    DecoratedAgrees(attr.decorators);
  }

  lemma SchemaAgrees(s: SchemaStmt)
    ensures forall a, t {:trigger SchemaStmtShape(a, s), TellSchema(t, s)} | Agrees(a, t) ::
      Agrees(SchemaStmtShape(a, s), TellSchema(t, s))
    decreases s, 2
  {
    hide TellArgumentsOption, TellCalls, TellOption, TellChecks, TellStmts, SchemaFrontShape, SchemaHeadShape,
      StmtsShape, ChecksShape, Marks, Agrees;
    WritesNoStatements();
    SchemaHeadAgrees(s);
    SchemaFrontAgrees(s);
    StmtsAgree(s.body);
    ChecksAgree(s.checks);
    NoChecks(s.checks);
  }

  lemma SchemaHeadAgrees(s: SchemaStmt)
    ensures forall a, t {:trigger SchemaHeadShape(a, s), TellArgumentsOption(TellCalls(t, s.decorators), s.args)}
      | Agrees(a, t) ::
      Agrees(SchemaHeadShape(a, s), TellArgumentsOption(TellCalls(t, s.decorators), s.args))
    decreases s, 0
  {
    hide DecoratedShape, BracketedArgumentsShape, Marks, Agrees;
    WritesNoStatements();
    DecoratedAgrees(s.decorators);
    BracketedAgrees(s.args);
  }

  lemma SchemaFrontAgrees(s: SchemaStmt)
    ensures forall a, t {:trigger SchemaFrontShape(a, s), TellIndex(t, s.index)} | Agrees(a, t) ::
      Agrees(SchemaFrontShape(a, s), TellIndex(t, s.index))
    decreases s, 1
  {
    hide Marks, Agrees;
    WritesNoStatements();
    MixinsHaveNone(s.mixins);
    if s.index.Some? { IndexAgrees(s.index.value); }
  }

  lemma BracketedAgrees(x: Option<Arguments>)
    ensures forall a, t {:trigger BracketedArgumentsShape(a, x), TellArgumentsOption(t, x)} | Agrees(a, t) ::
      Agrees(BracketedArgumentsShape(a, x), TellArgumentsOption(t, x))
  {
    hide Marks, Agrees;
    WritesNoStatements();
    if x.Some? { ArgumentsAgree(x.value); }
  }

  lemma IndexAgrees(x: IndexSignature)
    ensures forall a, t {:trigger IndexSignatureShape(a, x), TellOption(t, x.value)} | Agrees(a, t) ::
      Agrees(IndexSignatureShape(a, x), TellOption(t, x.value))
  {
    hide Marks, Agrees;
    WritesNoStatements();
    IndexKeyHasNone(x);
    OptionAgrees(" = ", x.value);
  }

  lemma ChecksAgree(xs: seq<CheckExpr>)
    ensures forall a, t {:trigger ChecksShape(a, xs), TellChecks(t, xs)} | Agrees(a, t) ::
      Agrees(ChecksShape(a, xs), TellChecks(t, xs))
  {
    hide Marks, Agrees;
    WritesNoStatements();
    if xs != [] {
      var n := |xs| - 1;
      ChecksAgree(xs[..n]);
      CheckAgrees(xs[n]);
    }
  }

  lemma RuleAgrees(r: RuleStmt)
    ensures forall a, t {:trigger RuleStmtShape(a, r), TellRule(t, r)} | Agrees(a, t) ::
      Agrees(RuleStmtShape(a, r), TellRule(t, r))
    decreases r, 1
  {
    hide Marks, Agrees;
    WritesNoStatements();
    RuleHeadAgrees(r);
    ChecksAgree(r.checks);
    NoChecks(r.checks);
  }

  lemma RuleHeadAgrees(r: RuleStmt)
    ensures forall a, t {:trigger RuleHeadShape(a, r), TellArgumentsOption(TellCalls(t, r.decorators), r.args)}
      | Agrees(a, t) ::
      Agrees(RuleHeadShape(a, r), TellArgumentsOption(TellCalls(t, r.decorators), r.args))
    decreases r, 0
  {
    hide DecoratedShape, BracketedArgumentsShape, IdentifiersShape, Marks, Agrees;
    WritesNoStatements();
    DecoratedAgrees(r.decorators);
    BracketedAgrees(r.args);
    IdentifiersHaveNone(r.parentRules);
  }

  lemma ExprsAgree(xs: seq<Node<Expr>>, sep: Sep)
    ensures forall a, t {:trigger ExprsShape(a, xs, sep), TellExprs(t, xs)} | Agrees(a, t) ::
      Agrees(ExprsShape(a, xs, sep), TellExprs(t, xs))
    decreases xs, 0
  {
    hide Marks, Agrees;
    WritesNoStatements();
    if xs != [] {
      var n := |xs| - 1;
      ExprsAgree(xs[..n], sep);
      ExprAgrees(xs[n]);
    }
  }

  lemma ExprAgrees(x: Node<Expr>)
    ensures forall a, t {:trigger ExprShape(a, x), TellExpr(t, x)} | Agrees(a, t) ::
      Agrees(ExprShape(a, x), TellExpr(t, x))
    decreases x, 0
  {
    hide Marks, Agrees;
    WritesNoStatements();
    ExprKindAgrees(x.node);
  }

  lemma OptionAgrees(before: string, x: Option<Node<Expr>>)
    ensures forall a, t {:trigger OptionShape(a, before, x), TellOption(t, x)} | Agrees(a, t) ::
      Agrees(OptionShape(a, before, x), TellOption(t, x))
    decreases x
  {
    hide Marks, Agrees;
    WritesNoStatements();
    if x.Some? { ExprAgrees(x.value); }
  }

  lemma ExprKindAgrees(x: Expr)
    ensures forall a, t {:trigger ExprKindShape(a, x), TellKind(t, x)} | Agrees(a, t) ::
      Agrees(ExprKindShape(a, x), TellKind(t, x))
    decreases x, 3
  {
    hide ExprShape, CallShape, QuantShape, ListShape, ListIfShape, OtherKindShape, Marks, Agrees;
    WritesNoStatements();
    if x.Unary? { ExprAgrees(x.operand); }
    else if x.Binary? { ExprAgrees(x.left); ExprAgrees(x.right); }
    else if x.IfExpr? { ExprAgrees(x.body); ExprAgrees(x.cond); ExprAgrees(x.orelse); }
    else if x.Selector? { ExprAgrees(x.value); }
    else if x.Call? { CallAgrees(x.call); }
    else if x.Paren? { ExprAgrees(x.expr); }
    else if x.Quant? { QuantAgrees(x.quant); }
    else if x.ListExpr? { ListAgrees(x.elts); }
    else if x.ListIfItem? { ListIfAgrees(x.listIf); }
    else if !x.Ident? { OtherKindAgrees(x); }
  }

  lemma OtherKindAgrees(x: Expr)
    requires !FirstGroup(x)
    ensures forall a, t {:trigger OtherKindShape(a, x), TellKind(t, x)} | Agrees(a, t) ::
      Agrees(OtherKindShape(a, x), TellKind(t, x))
    decreases x, 2
  {
    hide ClausesShape, ExprShape, OperationShape, ConfigIfShape, ClauseShape, SchemaExprShape, ConfigShape,
      CheckShape, LambdaShape, SubscriptShape, KeywordShape, ArgumentsShape, LiteralShape, Marks, Agrees;
    WritesNoStatements();
    if x.ListComp? { ExprAgrees(x.elt); ClausesAgree(x.listGenerators); }
    else if x.Starred? { ExprAgrees(x.starred); }
    else if x.DictComp? {
      ExprAgrees(x.dictKey);
      OperationHasNone(x.operation);
      ExprAgrees(x.dictValue);
      ClausesAgree(x.dictGenerators);
    }
    else if x.ConfigIfEntry? { ConfigIfAgrees(x.configIf); }
    else if x.Comp? { ClauseAgrees(x.clause); }
    else if x.Schema? { SchemaExprAgrees(x.schema); }
    else if x.Config? { ConfigAgrees(x.items); }
    else if x.Check? { CheckAgrees(x.check); }
    else if x.Lambda? { LambdaAgrees(x.lambda); }
    else if x.Sub? { SubscriptAgrees(x.subscript); }
    else if x.KeywordArg? { KeywordAgrees(x.keyword); }
    else if x.Args? { ArgumentsAgree(x.arguments); }
    else { LiteralAgrees(x); }
  }

  lemma LiteralAgrees(x: Expr)
    requires !FirstGroup(x) && !SecondGroup(x)
    ensures forall a, t {:trigger LiteralShape(a, x), TellKind(t, x)} | Agrees(a, t) ::
      Agrees(LiteralShape(a, x), TellKind(t, x))
    decreases x, 1
  {
    hide Marks, Agrees;
    WritesNoStatements();
    if x.Compare? { ExprAgrees(x.first); ComparatorsAgree(x.ops, x.comparators); }
    else if x.JoinedString? { JoinedAgrees(x.values); }
    else if x.FormattedValue? { ExprAgrees(x.formatted); }
  }

  lemma ListAgrees(elts: seq<Node<Expr>>)
    ensures forall a, t {:trigger ListShape(a, elts), TellExprs(t, elts)} | Agrees(a, t) ::
      Agrees(ListShape(a, elts), TellExprs(t, elts))
    decreases elts, 1
  {
    hide Marks, Agrees;
    WritesNoStatements();
    ExprsAgree(elts, Item(true));
  }

  lemma ConfigAgrees(items: seq<Node<ConfigEntry>>)
    ensures forall a, t {:trigger ConfigShape(a, items), TellEntries(t, items)} | Agrees(a, t) ::
      Agrees(ConfigShape(a, items), TellEntries(t, items))
    decreases items, 1
  {
    hide Marks, Agrees;
    WritesNoStatements();
    EntriesAgree(items, Item(true));
  }

  lemma CallAgrees(call: CallExpr)
    ensures forall a, t {:trigger CallShape(a, call), TellCall(t, call)} | Agrees(a, t) ::
      Agrees(CallShape(a, call), TellCall(t, call))
  {
    hide Marks, Agrees;
    WritesNoStatements();
    ExprAgrees(call.func);
    ExprsAgree(call.args, Comma);
    KeywordArgumentsAgree(call.args != [], call.keywords);
  }

  lemma KeywordArgumentsAgree(more: bool, kwargs: seq<Keyword>)
    ensures forall a, t {:trigger CallArgumentsShape(a, more, kwargs), TellKeywords(t, kwargs)} | Agrees(a, t) ::
      Agrees(CallArgumentsShape(a, more, kwargs), TellKeywords(t, kwargs))
    decreases kwargs, 1
  {
    hide Marks, Agrees;
    WritesNoStatements();
    KeywordsAgree(kwargs);
  }

  lemma KeywordsAgree(xs: seq<Keyword>)
    ensures forall a, t {:trigger KeywordsShape(a, xs), TellKeywords(t, xs)} | Agrees(a, t) ::
      Agrees(KeywordsShape(a, xs), TellKeywords(t, xs))
    decreases xs, 0
  {
    hide Marks, Agrees;
    WritesNoStatements();
    if xs != [] {
      var n := |xs| - 1;
      KeywordsAgree(xs[..n]);
      KeywordAgrees(xs[n]);
    }
  }

  lemma KeywordAgrees(x: Keyword)
    ensures forall a, t {:trigger KeywordShape(a, x), TellKeyword(t, x)} | Agrees(a, t) ::
      Agrees(KeywordShape(a, x), TellKeyword(t, x))
  {
    hide Marks, Agrees;
    WritesNoStatements();
    OptionAgrees("=", x.value);
  }

  lemma QuantAgrees(q: QuantExpr)
    ensures forall a, t {:trigger QuantShape(a, q), TellOption(TellExpr(TellExpr(t, q.target), q.test), q.ifCond)}
      | Agrees(a, t) ::
      Agrees(QuantShape(a, q), TellOption(TellExpr(TellExpr(t, q.target), q.test), q.ifCond))
  {
    hide Marks, Agrees;
    WritesNoStatements();
    IdentifiersHaveNone(q.variables);
    ExprAgrees(q.target);
    ExprAgrees(q.test);
    OptionAgrees(" if ", q.ifCond);
  }

  lemma ListIfAgrees(x: ListIfItemExpr)
    ensures forall a, t {:trigger ListIfShape(a, x), TellListIf(t, x)} | Agrees(a, t) ::
      Agrees(ListIfShape(a, x), TellListIf(t, x))
  {
    hide ExprsShape, ExprShape, TellExprs, TellExpr, Marks, Agrees;
    WritesNoStatements();
    ExprAgrees(x.ifCond);
    ExprsAgree(x.exprs, Line);
    match x.orelse {
      case NoListElse =>
      case ListElse(elts) => ExprsAgree(elts, Line);
      case ListElif(_, listIf) => ListIfAgrees(listIf);
    }
  }

  lemma ConfigIfAgrees(x: ConfigIfEntryExpr)
    ensures forall a, t {:trigger ConfigIfShape(a, x), TellConfigIf(t, x)} | Agrees(a, t) ::
      Agrees(ConfigIfShape(a, x), TellConfigIf(t, x))
  {
    hide TellEntries, TellExpr, EntriesShape, ExprShape, Marks, Agrees;
    WritesNoStatements();
    ExprAgrees(x.ifCond);
    EntriesAgree(x.items, Line);
    match x.orelse {
      case NoConfigElse =>
      case ConfigElse(items) => EntriesAgree(items, Line);
      case ConfigElif(_, configIf) => ConfigIfAgrees(configIf);
    }
  }

  lemma EntriesAgree(xs: seq<Node<ConfigEntry>>, sep: Sep)
    ensures forall a, t {:trigger EntriesShape(a, xs, sep), TellEntries(t, xs)} | Agrees(a, t) ::
      Agrees(EntriesShape(a, xs, sep), TellEntries(t, xs))
    decreases xs, 0
  {
    hide Marks, Agrees;
    WritesNoStatements();
    if xs != [] {
      var n := |xs| - 1;
      EntriesAgree(xs[..n], sep);
      EntryAgrees(xs[n]);
    }
  }

  lemma EntryAgrees(x: Node<ConfigEntry>)
    ensures forall a, t {:trigger EntryShape(a, x), TellEntry(t, x)} | Agrees(a, t) ::
      Agrees(EntryShape(a, x), TellEntry(t, x))
  {
    hide KeyShape, ExprShape, OperationShape, Marks, Agrees;
    WritesNoStatements();
    OperationHasNone(x.node.operation);
    ExprAgrees(x.node.value);
    if x.node.key.Some? {
      KeyAgrees(x.node.key.value);
      forall a, t | Agrees(a, t) ensures Agrees(EntryShape(a, x), TellEntry(t, x)) {
        var b := KeyShape(a, x.node.key.value);
        assert Agrees(b, TellExpr(t, x.node.key.value));
      }
    }
  }

  lemma KeyAgrees(key: Node<Expr>)
    ensures forall a, t {:trigger KeyShape(a, key), TellExpr(t, key)} | Agrees(a, t) ::
      Agrees(KeyShape(a, key), TellExpr(t, key))
    decreases key, 1
  {
    hide Marks, Agrees;
    WritesNoStatements();
    if key.node.Ident? { NamesHoldNone(key); }
    ExprAgrees(key);
  }

  lemma ClausesAgree(xs: seq<CompClause>)
    ensures forall a, t {:trigger ClausesShape(a, xs), TellClauses(t, xs)} | Agrees(a, t) ::
      Agrees(ClausesShape(a, xs), TellClauses(t, xs))
  {
    hide Marks, Agrees;
    WritesNoStatements();
    if xs != [] {
      var n := |xs| - 1;
      ClausesAgree(xs[..n]);
      ClauseAgrees(xs[n]);
    }
  }

  lemma ClauseAgrees(x: CompClause)
    ensures forall a, t {:trigger ClauseShape(a, x), TellClause(t, x)} | Agrees(a, t) ::
      Agrees(ClauseShape(a, x), TellClause(t, x))
  {
    hide Marks, Agrees;
    WritesNoStatements();
    IdentifiersHaveNone(x.targets);
    ExprAgrees(x.iter);
    IfsAgree(x.ifs);
  }

  lemma IfsAgree(xs: seq<Node<Expr>>)
    ensures forall a, t {:trigger IfsShape(a, xs), TellExprs(t, xs)} | Agrees(a, t) ::
      Agrees(IfsShape(a, xs), TellExprs(t, xs))
  {
    hide Marks, Agrees;
    WritesNoStatements();
    if xs != [] {
      var n := |xs| - 1;
      IfsAgree(xs[..n]);
      ExprAgrees(xs[n]);
    }
  }

  lemma SchemaExprAgrees(x: SchemaExpr)
    ensures forall a, t {:trigger SchemaExprShape(a, x), TellSchemaExpr(t, x)} | Agrees(a, t) ::
      Agrees(SchemaExprShape(a, x), TellSchemaExpr(t, x))
  {
    hide Marks, Agrees;
    WritesNoStatements();
    ExprsAgree(x.args, Comma);
    KeywordArgumentsAgree(x.args != [], x.kwargs);
    NoArguments(x.args, x.kwargs);
    ExprAgrees(x.config);
  }

  lemma CheckAgrees(x: CheckExpr)
    ensures forall a, t {:trigger CheckShape(a, x), TellCheck(t, x)} | Agrees(a, t) ::
      Agrees(CheckShape(a, x), TellCheck(t, x))
  {
    hide Marks, Agrees;
    WritesNoStatements();
    ExprAgrees(x.test);
    OptionAgrees(" if ", x.ifCond);
    OptionAgrees(", ", x.msg);
  }

  lemma LambdaAgrees(x: LambdaExpr)
    ensures forall a, t {:trigger LambdaShape(a, x), TellLambda(t, x)} | Agrees(a, t) ::
      Agrees(LambdaShape(a, x), TellLambda(t, x))
    decreases x, 1
  {
    hide Marks, Agrees;
    WritesNoStatements();
    LambdaHeadAgrees(x);
    StmtsAgree(x.body);
  }

  lemma LambdaHeadAgrees(x: LambdaExpr)
    ensures forall a, t {:trigger LambdaHeadShape(a, x), TellArgumentsOption(t, x.args)} | Agrees(a, t) ::
      Agrees(LambdaHeadShape(a, x), TellArgumentsOption(t, x.args))
    decreases x, 0
  {
    hide Marks, Agrees;
    WritesNoStatements();
    if x.args.Some? { ArgumentsAgree(x.args.value); }
  }

  lemma SubscriptAgrees(x: Subscript)
    ensures forall a, t {:trigger SubscriptShape(a, x), TellSubscript(t, x)} | Agrees(a, t) ::
      Agrees(SubscriptShape(a, x), TellSubscript(t, x))
  {
    hide Marks, Agrees;
    WritesNoStatements();
    ExprAgrees(x.value);
    if x.index.Some? {
      ExprAgrees(x.index.value);
    } else {
      BoundAgrees(x.lower);
      BoundAgrees(x.upper);
      BoundAgrees(x.step);
    }
  }

  lemma BoundAgrees(x: Option<Node<Expr>>)
    ensures forall a, t {:trigger BoundShape(a, x), TellOption(t, x)} | Agrees(a, t) ::
      Agrees(BoundShape(a, x), TellOption(t, x))
  {
    hide Marks, Agrees;
    WritesNoStatements();
    if x.Some? { ExprAgrees(x.value); }
  }

  lemma ArgumentsAgree(x: Arguments)
    ensures forall a, t {:trigger ArgumentsShape(a, x), TellArguments(t, x, ParameterCount(x))} | Agrees(a, t) ::
      Agrees(ArgumentsShape(a, x), TellArguments(t, x, ParameterCount(x)))
  {
    hide Marks, Agrees;
    WritesNoStatements();
    ParametersAgree(x, ParameterCount(x));
  }

  lemma ParametersAgree(x: Arguments, n: nat)
    requires n <= ParameterCount(x)
    ensures forall a, t {:trigger ParametersShape(a, x, n), TellArguments(t, x, n)} | Agrees(a, t) ::
      Agrees(ParametersShape(a, x, n), TellArguments(t, x, n))
    decreases x, n, 1
  {
    hide ParameterShape, Marks, Agrees;
    WritesNoStatements();
    if n > 0 {
      ParametersAgree(x, n - 1);
      ParameterAgrees(x, n - 1);
    }
  }

  lemma ParameterAgrees(x: Arguments, i: nat)
    requires i < ParameterCount(x)
    ensures forall a, t {:trigger ParameterShape(a, x, i), TellOption(t, x.defaults[i])} | Agrees(a, t) ::
      Agrees(ParameterShape(a, x, i), TellOption(t, x.defaults[i]))
    decreases x, i, 0
  {
    hide OptionShape, TellOption, Marks, Agrees;
    WritesNoStatements();
    OptionAgrees(" = ", x.defaults[i]);
  }

  lemma ComparatorsAgree(ops: seq<CmpOp>, xs: seq<Node<Expr>>)
    ensures forall a, t {:trigger ComparatorsShape(a, ops, xs), TellComparators(t, ops, xs)} | Agrees(a, t) ::
      Agrees(ComparatorsShape(a, ops, xs), TellComparators(t, ops, xs))
    decreases xs
  {
    hide Marks, Agrees;
    WritesNoStatements();
    if xs != [] {
      ComparatorsAgree(ops, xs[..|xs| - 1]);
      ExprAgrees(xs[|xs| - 1]);
    }
  }

  lemma JoinedAgrees(xs: seq<Node<Expr>>)
    ensures forall a, t {:trigger JoinedShape(a, xs), TellExprs(t, xs)} | Agrees(a, t) ::
      Agrees(JoinedShape(a, xs), TellExprs(t, xs))
  {
    hide Marks, Agrees;
    WritesNoStatements();
    if xs != [] {
      var n := |xs| - 1;
      JoinedAgrees(xs[..n]);
      JoinedValueAgrees(xs[n]);
    }
  }

  lemma JoinedValueAgrees(x: Node<Expr>)
    ensures forall a, t {:trigger JoinedValueShape(a, x), TellExpr(t, x)} | Agrees(a, t) ::
      Agrees(JoinedValueShape(a, x), TellExpr(t, x))
    decreases x, 1
  {
    hide Marks, Agrees;
    WritesNoStatements();
    if x.node.StringLit? { TextHoldsNone(x); } else { ExprAgrees(x); }
  }

  lemma NoChecks(xs: seq<CheckExpr>)
    ensures xs == [] ==> forall t :: TellChecks(t, xs) == t
  {
  }

  lemma NoArguments(xs: seq<Node<Expr>>, kwargs: seq<Keyword>)
    ensures xs == [] && kwargs == [] ==> forall t :: TellKeywords(TellExprs(t, xs), kwargs) == t
  {
  }

  lemma NamesHoldNone(key: Node<Expr>)
    requires key.node.Ident?
    ensures forall t :: TellExpr(t, key) == t
  {
  }

  lemma TextHoldsNone(x: Node<Expr>)
    requires x.node.StringLit?
    ensures forall t :: TellExpr(t, x) == t
  {
  }

  /** Every statement of a module is written, in order, if and only if no else block of it starts with an
      if statement and goes on. */
  lemma EveryStatementIsWritten(module_: Module)
    ensures var t, written := ModuleStatements(module_), Marks(ModuleShape([], module_));
      (written == t.stmts <==> t.cut == 0) && |written| <= |t.stmts| && (t.cut > 0 ==> |written| < |t.stmts|)
  {
    hide StmtsShape, TellStmts, Marks, Agrees;
    WritesNoStatements();
    NothingAgrees();
    StmtsAgree(module_.body);
    Shown(ModuleShape([], module_), ModuleStatements(module_));
  }

  /** A statement that is the name `name`. */
  function NameStmt(name: string, line: nat): Node<Stmt>
  {
    Node(ExprStmt([Node(Ident(Identifier([Part(name, true, "\"" + name + "\"")])), line)]), line)
  }

  /** The module

        if True:
            a
        else:
            if False:
                b
            c
  */
  function CutModule(): Module
  {
    var inner := Node(If(IfStmt(Node(NameConstantLit(False), 4), [NameStmt("b", 5)], [])), 4);
    var outer := IfStmt(Node(NameConstantLit(True), 1), [NameStmt("a", 2)], [inner, NameStmt("c", 6)]);
    Module("", [Node(If(outer), 1)], [])
  }

  lemma TellIfAlone(t: Told, s: IfStmt, b: Told)
    requires TellStmts(TellExpr(t, s.cond), s.body) == b && s.orelse == []
    ensures TellIf(t, s) == b
  {
    hide TellStmts, TellExpr;
  }

  lemma TellIfCut(t: Told, s: IfStmt, b: Told, c: Told, d: Told)
    requires TellStmts(TellExpr(t, s.cond), s.body) == b && |s.orelse| > 1 && s.orelse[0].node.If?
    requires TellIf(b, s.orelse[0].node.ifStmt) == c && TellStmts(c, s.orelse[1..]) == d
    ensures TellIf(t, s) == d.(cut := d.cut + 1)
  {
    hide TellStmts, TellExpr;
  }

  lemma TellIfNode(t: Told, x: Node<Stmt>)
    requires x.node.If?
    ensures TellStmts(t, [x]) == TellIf(Told(t.stmts + [x], t.cut), x.node.ifStmt)
  {
    TellOne(t, x);
    TellIfStmt(Told(t.stmts + [x], t.cut), x.node);
    hide TellStmts, TellIf, TellStmt;
  }

  lemma TellIfStmt(t: Told, x: Stmt)
    requires x.If?
    ensures TellStmt(t, x) == TellIf(t, x.ifStmt)
  {
    hide TellStmts, TellIf, TellExprs, TellExpr, TellSchemaExpr, TellCheck, TellOption, TellCalls, TellSchema, TellRule;
  }

  /** Its last statement is not written. */
  lemma ElseBlockIsCut()
    ensures var m := CutModule();
      ModuleStatements(m).stmts == [m.body[0], NameStmt("a", 2), NameStmt("b", 5), NameStmt("c", 6)]
      && |Marks(ModuleShape([], m))| < 4
  {
    var m := CutModule();
    hide ModuleShape, Marks, NameStmt, TellStmts, TellExpr, TellIf;
    EveryStatementIsWritten(m);
    var outer := m.body[0];
    var s := outer.node.ifStmt;
    TellIfNode(Told([], 0), outer);
    var t := Told([outer], 0);
    assert Told([] + [outer], 0) == t;
    IfTold(t, s.cond, "a", 2);
    var t1 := Told([outer] + [NameStmt("a", 2)], 0);
    IfTold(t1, s.orelse[0].node.ifStmt.cond, "b", 5);
    var t2 := Told(t1.stmts + [NameStmt("b", 5)], 0);
    TellIfAlone(t1, s.orelse[0].node.ifStmt, t2);
    assert s.orelse[1..] == [NameStmt("c", 6)];
    NameTold(t2, "c", 6);
    TellIfCut(t, s, t1, t2, Told(t2.stmts + [NameStmt("c", 6)], 0));
  }

  lemma NameTold(t: Told, name: string, line: nat)
    ensures TellStmts(t, [NameStmt(name, line)]) == Told(t.stmts + [NameStmt(name, line)], t.cut)
  {
    var x := NameStmt(name, line);
    TellOne(t, x);
    var u := Told(t.stmts + [x], t.cut);
    var e := x.node.exprs[0];
    NamesHoldNone(e);
    assert e.node.Ident? && x.node == ExprStmt([e]);
    hide NameStmt;
    TellOneExpr(u, e);
    hide TellExprs, TellExpr, TellStmts;
  }

  lemma TellOneExpr(t: Told, e: Node<Expr>)
    ensures TellExprs(t, [e]) == TellExpr(t, e)
  {
    hide TellExpr;
    assert [e][..0] == [];
  }

  /** The condition of an if statement, a constant, and a body of one name. */
  lemma IfTold(t: Told, cond: Node<Expr>, name: string, line: nat)
    requires cond.node.NameConstantLit?
    ensures TellStmts(TellExpr(t, cond), [NameStmt(name, line)]) == Told(t.stmts + [NameStmt(name, line)], t.cut)
  {
    assert TellExpr(t, cond) == t;
    hide TellExpr;
    NameTold(t, name, line);
  }

  lemma TellOne(t: Told, x: Node<Stmt>)
    ensures TellStmts(t, [x]) == TellStmtNode(t, x)
  {
    hide TellStmtNode;
    assert [x][..0] == [];
  }

  lemma NothingAgrees()
    ensures Agrees([], Told([], 0))
  {
  }

  lemma Shown(a: S, t: Told)
    requires Agrees(a, t)
    ensures (Marks(a) == t.stmts <==> t.cut == 0) && |Marks(a)| <= |t.stmts| && (t.cut > 0 ==> |Marks(a)| < |t.stmts|)
  {
  }
}
