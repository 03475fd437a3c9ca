/** The tokens of a printed syntax tree, written out for every form in terms of the lexer's own tokens, with the places
    where layout may put blanks, line ends and comments. kclvm/ast_pretty/src/node.rs. */
module PrintItems {
  import opened LexerSpec
  import opened Numbers
  import opened Relexing
  import opened Wrappers
  import opened PrintLexing
  import opened PrintAtoms
  import P = PrettyAst
  import PS = PrintSpec
  import TypePrinter

  /** An atom, a line end, a place where there may be layout, or what stands between the items of a list or
      configuration: a comma on one line, a line end on several. `Split` is the word `elif` of a conditional item,
      inside which the source reaches a node. */
  datatype Item = Is(atom: Atom) | LineEnd | Layout | Between | Split

  type Items = seq<Item>

  function A(t: Items, a: Atom): Items { t + [Is(a)] }
  function Named(t: Items, w: string): Items { A(t, Name(w)) }
  function Sign(t: Items, op: Op): Items { A(t, Punct(op)) }
  function Blank(t: Items): Items { A(t, Gap(' ')) }
  function End(t: Items): Items { t + [LineEnd] }
  function Lay(t: Items): Items { t + [Layout] }

  /** A word between blanks. */
  function Mid(t: Items, w: string): Items { Blank(Named(Blank(t), w)) }

  /** A comma and a blank. */
  function Listed(t: Items): Items { Blank(Sign(t, Op.Comma)) }

  function Typed(t: Items): Items { Blank(Sign(t, Op.Colon)) }

  /** An equals sign between blanks. */
  function Equals(t: Items): Items { Blank(Sign(Blank(t), Op.Eq)) }

  // ----- names and operators -----

  function FieldsItems(t: Items, names: seq<P.Part>): Items
  {
    if names == [] then t
    else A(FieldsItems(t, names[..|names| - 1]), Field(names[|names| - 1].text))
  }

  function NameItems(t: Items, x: P.Identifier): Items
  {
    if x.names == [] then t else FieldsItems(Named(t, x.names[0].text), x.names[1..])
  }

  function NamesItems(t: Items, xs: seq<P.Identifier>): Items
  {
    if xs == [] then t
    else
      var n := |xs| - 1;
      NameItems(if n == 0 then t else Listed(NamesItems(t, xs[..n])), xs[n])
  }

  function UnaryItems(t: Items, op: P.UnaryOp): Items
  {
    match op
    case UAdd => Sign(t, Plus) case USub => Sign(t, Minus) case Invert => Sign(t, Tilde)
    case Not => Blank(Named(t, "not"))
  }

  function BinItems(t: Items, op: P.BinOp): Items
  {
    match op
    case Arith(arith) => Sign(t, ArithOp(arith))
    case And => Named(t, "and") case Or => Named(t, "or") case As => Named(t, "as")
  }

  function CmpItems(t: Items, op: P.CmpOp): Items
  {
    match op
    case Eq => Sign(t, EqEq) case NotEq => Sign(t, BangEq) case Lt => Sign(t, Op.Lt) case LtE => Sign(t, LtEq)
    case Gt => Sign(t, Op.Gt) case GtE => Sign(t, GtEq) case Is => Named(t, "is") case In => Named(t, "in")
    case NotIn => Named(Blank(Named(t, "not")), "in") case CmpNot => Named(t, "not")
    case IsNot => Named(Blank(Named(t, "is")), "not")
  }

  function OpItems(t: Items, op: P.BinOrCmpOp): Items
  {
    match op case Bin(bin) => BinItems(t, bin) case Cmp(cmp) => CmpItems(t, cmp)
  }

  /** The operator of an augmented assignment. */
  function AugSign(op: P.AugOp): Op
  {
    match op
    case PlainAssign => Op.Eq
    case AugArith(arith) =>
      match arith
      case Add => PlusEq case Minus => MinusEq case Mul => StarEq case Div => SlashEq case Mod => PercentEq
      case Pow => StarStarEq case FloorDiv => SlashSlashEq case LShift => LtLtEq case RShift => GtGtEq
      case BitXor => CaretEq case BitAnd => AndEq case BitOr => OrEq
  }

  function BinOrAugItems(t: Items, op: P.BinOrAugOp): Items
  {
    match op case BinOrAugBin(bin) => BinItems(t, bin) case Aug(aug) => Sign(t, AugSign(aug))
  }

  // ----- statements -----

  function ModuleItems(m: P.Module): Items
  {
    StmtsItems(if m.doc != "" then End(A([], Given(m.doc))) else [], m.body)
  }

  function StmtsItems(t: Items, stmts: seq<P.Node<P.Stmt>>): Items
    decreases stmts
  {
    if stmts == [] then t
    else
      var n := |stmts| - 1;
      StmtNodeItems(StmtsItems(t, stmts[..n]), stmts[n])
  }

  function StmtNodeItems(t: Items, stmt: P.Node<P.Stmt>): Items
    decreases stmt
  {
    StmtItems(Lay(Lay(t)), stmt.node)
  }

  function StmtItems(t: Items, stmt: P.Stmt): Items
    decreases stmt
  {
    match stmt
    case TypeAlias(name, value) => End(A(Equals(NameItems(Blank(Named(t, "type")), name)), Given(value)))
    case ExprStmt(exprs) => End(ExprsItems(t, exprs, PS.Comma))
    case Unification(target, value) => End(SchemaExprItems(Typed(NameItems(t, target)), value))
    case Assign(targets, ty, value) =>
      var b := End(ExprItems(TargetsItems(t, targets, ty), value));
      if value.node.Schema? then End(b) else b
    case AugAssign(target, op, value) =>
      End(ExprItems(Blank(Sign(Blank(NameItems(t, target)), AugSign(op))), value))
    case Assert(check) => End(CheckItems(Blank(Named(t, "assert")), check))
    case If(ifStmt) => IfItems(Blank(Named(t, "if")), ifStmt)
    case Import(path, asname) =>
      var b := A(Blank(Named(t, "import")), Given(path));
      End(if asname.Some? then Named(Mid(b, "as"), asname.value) else b)
    case Attr(attr) => AttrItems(t, attr)
    case SchemaDef(schema) => SchemaItems(t, schema)
    case RuleDef(rule) => RuleItems(t, rule)
  }

  function TargetsItems(t: Items, targets: seq<P.Identifier>, ty: Option<TypePrinter.Type>): Items
    decreases targets
  {
    if targets == [] then t
    else
      var n := |targets| - 1;
      TargetItems(TargetsItems(t, targets[..n], ty), targets[n], if n == 0 then ty else None)
  }

  function TargetItems(t: Items, target: P.Identifier, ty: Option<TypePrinter.Type>): Items
  {
    var b := NameItems(t, target);
    Equals(if ty.Some? then A(Typed(b), Given(TypePrinter.Print(ty.value))) else b)
  }

  /** Behind `if` or `elif`. Of an else block that starts with an `if` only that is written. */
  function IfItems(t: Items, s: P.IfStmt): Items
    decreases s
  {
    var b := StmtsItems(End(Sign(ExprItems(t, s.cond), Op.Colon)), s.body);
    if s.orelse == [] then End(b)
    else if s.orelse[0].node.If? then IfItems(Blank(Named(Lay(b), "elif")), s.orelse[0].node.ifStmt)
    else StmtsItems(End(Sign(Named(Lay(b), "else"), Op.Colon)), s.orelse)
  }

  function DecoratorsItems(t: Items, xs: seq<P.CallExpr>): Items
    decreases xs, 0
  {
    if xs == [] then t
    else
      var n := |xs| - 1;
      CallItems(Sign(if n == 0 then t else End(DecoratorsItems(t, xs[..n])), At), xs[n])
  }

  function DecoratedItems(t: Items, xs: seq<P.CallExpr>): Items
    decreases xs, 1
  {
    if xs == [] then t else End(DecoratorsItems(t, xs))
  }

  function AttrItems(t: Items, attr: P.SchemaAttr): Items
    decreases attr, 1
  {
    var b := AttrTypeItems(t, attr);
    var c := if attr.op.Some? then Blank(BinOrAugItems(Blank(b), attr.op.value)) else b;
    End(match attr.value case Some(value) => ExprItems(c, value) case None => c)
  }

  function AttrTypeItems(t: Items, attr: P.SchemaAttr): Items
    decreases attr, 0
  {
    var b := Named(DecoratedItems(t, attr.decorators), attr.name);
    A(Typed(if attr.isOptional then Sign(b, Op.Question) else b), Given(attr.typeStr))
  }

  function SchemaItems(t: Items, s: P.SchemaStmt): Items
    decreases s, 1
  {
    var b := SchemaFrontItems(End(Sign(SchemaHeadItems(t, s), Op.Colon)), s);
    var c := End(StmtsItems(b, s.body));
    if s.checks != [] then End(End(ChecksItems(End(Sign(Named(Lay(c), "check"), Op.Colon)), s.checks))) else c
  }

  function SchemaFrontItems(t: Items, s: P.SchemaStmt): Items
    decreases s, 0
  {
    var b := if s.doc != "" then End(A(Lay(t), Given(s.doc))) else t;
    var c := if s.mixins != [] then MixinsItems(b, s.mixins) else b;
    match s.index case Some(index) => IndexItems(c, index) case None => c
  }

  function SchemaHeadItems(t: Items, s: P.SchemaStmt): Items
    decreases s, 0
  {
    var kind := if s.isMixin then "mixin" else if s.isProtocol then "protocol" else "schema";
    var c := BracketedItems(Named(Blank(Named(DecoratedItems(t, s.decorators), kind)), s.name), s.args);
    var d :=
      if s.parentName.Some? then Sign(NameItems(Sign(c, OpenParen), s.parentName.value), CloseParen) else c;
    if s.forHostName.Some? then NameItems(Mid(d, "for"), s.forHostName.value) else d
  }

  function BracketedItems(t: Items, args: Option<P.Arguments>): Items
    decreases args
  {
    match args case Some(args) => Sign(ArgumentsItems(Sign(t, OpenBracket), args), CloseBracket) case None => t
  }

  function MixinsItems(t: Items, mixins: seq<P.Identifier>): Items
  {
    End(Sign(End(MixinNamesItems(End(Sign(Blank(Named(Lay(t), "mixin")), OpenBracket)), mixins)), CloseBracket))
  }

  function MixinNamesItems(t: Items, xs: seq<P.Identifier>): Items
    decreases xs
  {
    if xs == [] then t
    else
      var n := |xs| - 1;
      NameItems(if n == 0 then t else End(Sign(MixinNamesItems(t, xs[..n]), Op.Comma)), xs[n])
  }

  function IndexItems(t: Items, index: P.IndexSignature): Items
    decreases index
  {
    var b := A(Typed(Sign(IndexKeyItems(t, index), CloseBracket)), Given(index.valueType));
    End(match index.value case Some(value) => ExprItems(Equals(b), value) case None => b)
  }

  function IndexKeyItems(t: Items, index: P.IndexSignature): Items
  {
    var b := Sign(Lay(t), OpenBracket);
    var c := if index.anyOther then Sign(b, DotDotDot) else b;
    A(if index.keyName.Some? then Typed(Named(c, index.keyName.value)) else c, Given(index.keyType))
  }

  function ChecksItems(t: Items, xs: seq<P.CheckExpr>): Items
    decreases xs
  {
    if xs == [] then t
    else
      var n := |xs| - 1;
      CheckItems(if n == 0 then t else End(ChecksItems(t, xs[..n])), xs[n])
  }

  function RuleItems(t: Items, r: P.RuleStmt): Items
    decreases r
  {
    var b := End(Sign(RuleHeadItems(t, r), Op.Colon));
    var c := if r.doc != "" then End(A(b, Given(r.doc))) else b;
    if r.checks != [] then End(ChecksItems(c, r.checks)) else c
  }

  function RuleHeadItems(t: Items, r: P.RuleStmt): Items
    decreases r, 0
  {
    var c := BracketedItems(Named(Blank(Named(DecoratedItems(t, r.decorators), "rule")), r.name), r.args);
    var d := if r.parentRules != [] then Sign(NamesItems(Sign(c, OpenParen), r.parentRules), CloseParen) else c;
    if r.forHostName.Some? then NameItems(Mid(d, "for"), r.forHostName.value) else d
  }

  // ----- expressions -----

  function Separated(t: Items, sep: PS.Sep): Items
  {
    match sep case Comma => Listed(t) case Line => End(t) case Item(_) => t + [Between]
  }

  function ExprsItems(t: Items, xs: seq<P.Node<P.Expr>>, sep: PS.Sep): Items
    decreases xs, 0
  {
    if xs == [] then t
    else
      var n := |xs| - 1;
      ExprItems(if n == 0 then t else Separated(ExprsItems(t, xs[..n], sep), sep), xs[n])
  }

  function ExprItems(t: Items, x: P.Node<P.Expr>): Items
    decreases x, 0
  {
    KindItems(Lay(t), x.node)
  }

  function KindItems(t: Items, x: P.Expr): Items
    decreases x, 3
  {
    match x
    case Ident(identifier) => NameItems(t, identifier)
    case Unary(op, operand) => ExprItems(UnaryItems(t, op), operand)
    case Binary(left, op, right) => ExprItems(Blank(OpItems(Blank(ExprItems(t, left)), op)), right)
    case IfExpr(body, cond, orelse) =>
      ExprItems(Mid(ExprItems(Mid(ExprItems(t, body), "if"), cond), "else"), orelse)
    case Selector(value, attr, hasQuestion) =>
      var b := ExprItems(t, value);
      FieldsItems(if hasQuestion then Sign(b, Op.Question) else b, attr.names)
    case Call(call) => CallItems(t, call)
    case Paren(expr) => Sign(ExprItems(Sign(t, OpenParen), expr), CloseParen)
    case Quant(quant) => QuantItems(t, quant)
    case ListExpr(elts) => ListItems(t, elts)
    case ListIfItem(listIf) => ListIfItems(Blank(Named(t, "if")), listIf)
    case _ => OtherItems(t, x)
  }

  function OtherItems(t: Items, x: P.Expr): Items
    decreases x, 2
  {
    match x
    case ListComp(elt, generators) =>
      Sign(ClausesItems(ExprItems(Sign(t, OpenBracket), elt), generators), CloseBracket)
    case Starred(value) => ExprItems(Sign(t, Star), value)
    case DictComp(key, operation, value, generators) =>
      var b := OperationItems(ExprItems(Sign(t, OpenBrace), key), operation);
      Sign(ClausesItems(ExprItems(b, value), generators), CloseBrace)
    case ConfigIfEntry(configIf) => ConfigIfItems(Blank(Named(t, "if")), configIf)
    case Comp(clause) => ClauseItems(t, clause)
    case Schema(schema) => SchemaExprItems(t, schema)
    case Config(items) => ConfigItems(t, items)
    case Check(check) => CheckItems(t, check)
    case Lambda(lambda) => LambdaItems(t, lambda)
    case Sub(subscript) => SubscriptItems(t, subscript)
    case KeywordArg(keyword) => KeywordItems(t, keyword)
    case Args(arguments) => ArgumentsItems(t, arguments)
    case _ => LiteralItems(t, x)
  }

  function LiteralItems(t: Items, x: P.Expr): Items
    decreases x, 1
  {
    match x
    case Compare(first, ops, comparators) => ComparatorsItems(ExprItems(t, first), ops, comparators)
    case NumberLit(number, suffix) =>
      if number.FloatValue? then A(t, Given(number.text))
      else if number.i < 0 then A(Sign(t, Minus), Num(-number.i, suffix))
      else A(t, Num(number.i, suffix))
    case StringLit(str) =>
      A(t, if str.rawValue != "" then Given(str.rawValue) else Atom.Str(str.value, str.isLongString))
    case NameConstantLit(constant) =>
      Named(t, match constant
              case True => "True" case False => "False" case None_ => "None" case Undefined => "Undefined")
    case _ => t
  }

  function ListItems(t: Items, elts: seq<P.Node<P.Expr>>): Items
    decreases elts, 1
  {
    Sign(Lay(ExprsItems(Lay(Sign(t, OpenBracket)), elts, PS.Item(true))), CloseBracket)
  }

  function ConfigItems(t: Items, items: seq<P.Node<P.ConfigEntry>>): Items
    decreases items, 1
  {
    var b := Sign(t, OpenBrace);
    Sign(if items == [] then b else Lay(EntriesItems(Lay(b), items, PS.Item(true))), CloseBrace)
  }

  /** A union is a colon, an override an equals sign, an insertion a plus and an equals sign. */
  function OperationItems(t: Items, operation: P.EntryOperation): Items
  {
    match operation
    case Union => Typed(t)
    case Override => Equals(t)
    case Insert => Blank(Sign(Blank(t), PlusEq))
  }

  function CallItems(t: Items, call: P.CallExpr): Items
    decreases call
  {
    var args := ExprsItems(Sign(ExprItems(t, call.func), OpenParen), call.args, PS.Comma);
    Sign(CallArgumentsItems(args, call.args != [], call.keywords), CloseParen)
  }

  function CallArgumentsItems(t: Items, more: bool, kwargs: seq<P.Keyword>): Items
    decreases kwargs, 1
  {
    KeywordsItems(if more && kwargs != [] then Listed(t) else t, kwargs)
  }

  function KeywordsItems(t: Items, xs: seq<P.Keyword>): Items
    decreases xs, 0
  {
    if xs == [] then t
    else
      var n := |xs| - 1;
      KeywordItems(if n == 0 then t else Listed(KeywordsItems(t, xs[..n])), xs[n])
  }

  function KeywordItems(t: Items, keyword: P.Keyword): Items
    decreases keyword
  {
    var b := NameItems(t, keyword.arg);
    match keyword.value case Some(value) => ExprItems(Sign(b, Op.Eq), value) case None => b
  }

  function QuantItems(t: Items, q: P.QuantExpr): Items
    decreases q
  {
    var op := match q.op case All => "all" case Any => "any" case Filter => "filter" case Map => "map";
    var b := Mid(NamesItems(Blank(Named(t, op)), q.variables), "in");
    var c := ExprItems(End(Sign(Blank(ExprItems(b, q.target)), OpenBrace)), q.test);
    Sign(End(match q.ifCond case Some(cond) => ExprItems(Mid(c, "if"), cond) case None => c), CloseBrace)
  }

  /** Behind `if` or `elif`. */
  function ListIfItems(t: Items, x: P.ListIfItemExpr): Items
    decreases x
  {
    var b := End(ExprsItems(End(Sign(ExprItems(t, x.ifCond), Op.Colon)), x.exprs, PS.Line));
    match x.orelse
    case NoListElse => b
    case ListElse(elts) => ExprsItems(End(Sign(Named(b, "else"), Op.Colon)), elts, PS.Line)
    case ListElif(_, listIf) => ListIfItems(Blank(b + [Split]), listIf)
  }

  function ConfigIfItems(t: Items, x: P.ConfigIfEntryExpr): Items
    decreases x
  {
    var b := End(EntriesItems(End(Sign(ExprItems(t, x.ifCond), Op.Colon)), x.items, PS.Line));
    match x.orelse
    case NoConfigElse => b
    case ConfigElse(items) => EntriesItems(End(Sign(Named(b, "else"), Op.Colon)), items, PS.Line)
    case ConfigElif(_, configIf) => ConfigIfItems(Blank(b + [Split]), configIf)
  }

  function EntriesItems(t: Items, xs: seq<P.Node<P.ConfigEntry>>, sep: PS.Sep): Items
    decreases xs, 0
  {
    if xs == [] then t
    else
      var n := |xs| - 1;
      EntryItems(if n == 0 then t else Separated(EntriesItems(t, xs[..n], sep), sep), xs[n])
  }

  /** A key with a part that is no plain name is taken apart: its parts have braces between, which are closed behind
      the value. */
  predicate TakenApart(key: P.Expr)
  {
    key.Ident? && exists i | 0 <= i < |key.identifier.names| :: !key.identifier.names[i].isPlain
  }

  function BracedItems(t: Items, names: seq<P.Part>): Items
    decreases names
  {
    if names == [] then t
    else
      var n := |names| - 1;
      A(if n == 0 then t else Sign(Typed(BracedItems(t, names[..n])), OpenBrace), Given(names[n].debug))
  }

  function ClosedItems(t: Items, n: nat): Items
  {
    if n == 0 then t else Sign(ClosedItems(t, n - 1), CloseBrace)
  }

  function KeyItems(t: Items, key: P.Node<P.Expr>): Items
    decreases key, 1
  {
    if TakenApart(key.node) then BracedItems(Lay(t), key.node.identifier.names)
    else ExprItems(if key.node.Ident? then Lay(t) else t, key)
  }

  function ClosingItems(t: Items, key: P.Expr): Items
  {
    if TakenApart(key) then ClosedItems(t, |key.identifier.names| - 1) else t
  }

  /** Key, index in brackets, operation and value; without a key two stars and the value. */
  function EntryItems(t: Items, item: P.Node<P.ConfigEntry>): Items
    decreases item
  {
    var entry := item.node;
    match entry.key
    case Some(key) =>
      var b := KeyItems(t, key);
      var c :=
        if entry.insertIndex >= 0 then Sign(A(Sign(b, OpenBracket), Num(entry.insertIndex, None)), CloseBracket)
        else b;
      ClosingItems(ExprItems(OperationItems(c, entry.operation), entry.value), key.node)
    case None => ExprItems(if entry.value.node.ConfigIfEntry? then t else Sign(t, StarStar), entry.value)
  }

  function ClausesItems(t: Items, xs: seq<P.CompClause>): Items
    decreases xs
  {
    if xs == [] then t
    else
      var n := |xs| - 1;
      ClauseItems(ClausesItems(t, xs[..n]), xs[n])
  }

  function ClauseItems(t: Items, clause: P.CompClause): Items
    decreases clause
  {
    IfsItems(ExprItems(Mid(NamesItems(Mid(t, "for"), clause.targets), "in"), clause.iter), clause.ifs)
  }

  function IfsItems(t: Items, ifs: seq<P.Node<P.Expr>>): Items
    decreases ifs
  {
    if ifs == [] then t
    else
      var n := |ifs| - 1;
      ExprItems(Mid(IfsItems(t, ifs[..n]), "if"), ifs[n])
  }

  function SchemaExprItems(t: Items, x: P.SchemaExpr): Items
    decreases x
  {
    var b := NameItems(t, x.name);
    var c :=
      if x.args != [] || x.kwargs != [] then
        Sign(CallArgumentsItems(ExprsItems(Sign(b, OpenParen), x.args, PS.Comma), x.args != [], x.kwargs), CloseParen)
      else b;
    ExprItems(Blank(c), x.config)
  }

  function CheckItems(t: Items, check: P.CheckExpr): Items
    decreases check
  {
    var b := ExprItems(t, check.test);
    var c := match check.ifCond case Some(cond) => ExprItems(Mid(b, "if"), cond) case None => b;
    match check.msg case Some(msg) => ExprItems(Listed(c), msg) case None => c
  }

  function LambdaItems(t: Items, x: P.LambdaExpr): Items
    decreases x, 1
  {
    Sign(End(StmtsItems(End(Sign(Blank(LambdaHeadItems(t, x)), OpenBrace)), x.body)), CloseBrace)
  }

  function LambdaHeadItems(t: Items, x: P.LambdaExpr): Items
    decreases x, 0
  {
    var b := Named(t, "lambda");
    var c := match x.args case Some(args) => ArgumentsItems(Blank(b), args) case None => b;
    if x.returnType.Some? then A(Blank(Sign(Sign(Blank(c), Minus), Op.Gt)), Given(x.returnType.value)) else c
  }

  function SubscriptItems(t: Items, x: P.Subscript): Items
    decreases x
  {
    var b := ExprItems(t, x.value);
    var c := Sign(if x.hasQuestion then Sign(b, Op.Question) else b, OpenBracket);
    Sign(match x.index
         case Some(index) => ExprItems(c, index)
         case None => BoundItems(Sign(BoundItems(Sign(BoundItems(c, x.lower), Op.Colon), x.upper), Op.Colon), x.step),
         CloseBracket)
  }

  function BoundItems(t: Items, x: Option<P.Node<P.Expr>>): Items
    decreases x
  {
    match x case Some(x) => ExprItems(t, x) case None => t
  }

  function ArgumentsItems(t: Items, x: P.Arguments): Items
    decreases x
  {
    ParametersItems(t, x, PS.ParameterCount(x))
  }

  function ParametersItems(t: Items, x: P.Arguments, n: nat): Items
    requires n <= PS.ParameterCount(x)
    decreases x, n, 1
  {
    if n == 0 then t else ParameterItems(if n == 1 then t else Listed(ParametersItems(t, x, n - 1)), x, n - 1)
  }

  function ParameterItems(t: Items, x: P.Arguments, i: nat): Items
    requires i < PS.ParameterCount(x)
    decreases x, i, 0
  {
    var b := NameItems(t, x.args[i]);
    var c := if x.annotations[i].Some? then A(Typed(b), Given(x.annotations[i].value)) else b;
    match x.defaults[i] case Some(value) => ExprItems(Equals(c), value) case None => c
  }

  function ComparatorsItems(t: Items, ops: seq<P.CmpOp>, comparators: seq<P.Node<P.Expr>>): Items
    decreases comparators
  {
    if comparators == [] then t
    else
      var n := |comparators| - 1;
      var b := ComparatorsItems(t, ops, comparators[..n]);
      if n < |ops| then ExprItems(Blank(CmpItems(Blank(b), ops[n])), comparators[n]) else b
  }
}
