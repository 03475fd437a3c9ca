/** Which syntax trees are printed as text that is lexed as their tokens. kclvm/ast_pretty/src/node.rs. */
module PrintOk {
  import opened LexerSpec
  import opened Relexing
  import opened Wrappers
  import opened PrintAtoms
  import opened PrintItems
  import P = PrettyAst
  import PS = PrintSpec
  import TypePrinter

  /** A text that comes with the tree ends where its last token ends. */
  ghost predicate TextOk(cc: CharClass, text: string) { AtomOk(cc, Given(text)) }

  /** Names are identifiers, strings are readable, and texts that come with the tree stand by themselves. What is not
      covered are interpolated strings, missing expressions, and starred values outside lists and calls. */
  ghost predicate OkExpr(cc: CharClass, x: P.Node<P.Expr>)
    decreases x, 0
  {
    OkKind(cc, x.node)
  }

  ghost predicate OkKind(cc: CharClass, x: P.Expr)
    decreases x, 2
  {
    match x
    case Ident(identifier) => NameOk(cc, identifier)
    case Unary(_, operand) => OkExpr(cc, operand)
    case Binary(left, _, right) => OkExpr(cc, left) && OkExpr(cc, right)
    case IfExpr(body, cond, orelse) => OkExpr(cc, body) && OkExpr(cc, cond) && OkExpr(cc, orelse)
    case Selector(value, attr, _) => OkExpr(cc, value) && attr.names != [] && FieldsOk(cc, attr.names)
    case Call(call) => OkCall(cc, call)
    case Paren(expr) => OkExpr(cc, expr)
    case Quant(quant) => OkQuant(cc, quant)
    case ListExpr(elts) => OkItems(cc, elts)
    case ListIfItem(listIf) => OkListIf(cc, listIf)
    case _ => OkOther(cc, x)
  }

  ghost predicate OkOther(cc: CharClass, x: P.Expr)
    decreases x, 1
  {
    match x
    case ListComp(elt, generators) => OkExpr(cc, elt) && OkClauses(cc, generators)
    case DictComp(key, _, value, generators) => OkExpr(cc, key) && OkExpr(cc, value) && OkClauses(cc, generators)
    case ConfigIfEntry(configIf) => OkConfigIf(cc, configIf)
    case Comp(clause) => OkClause(cc, clause)
    case Schema(schema) => OkSchemaExpr(cc, schema)
    case Config(items) => OkEntries(cc, items)
    case Check(check) => OkCheck(cc, check)
    case Lambda(lambda) => OkLambda(cc, lambda)
    case Sub(subscript) => OkSubscript(cc, subscript)
    case KeywordArg(keyword) => OkKeyword(cc, keyword)
    case Args(arguments) => PS.ParameterCount(arguments) > 0 && OkArguments(cc, arguments)
    case Compare(first, _, comparators) => OkExpr(cc, first) && OkExprs(cc, comparators)
    case NumberLit(number, suffix) => number.FloatValue? ==> suffix.None? && TextOk(cc, number.text)
    case StringLit(str) =>
      if str.rawValue != "" then TextOk(cc, str.rawValue) else ReadableFrom(str.value, 0, str.isLongString)
    case NameConstantLit(_) => true
    case _ => false
  }

  ghost predicate OkExprs(cc: CharClass, xs: seq<P.Node<P.Expr>>)
    decreases xs
  {
    forall i | 0 <= i < |xs| :: OkExpr(cc, xs[i])
  }

  /** An expression or a starred one. */
  ghost predicate OkItem(cc: CharClass, x: P.Node<P.Expr>)
    decreases x, 1
  {
    if x.node.Starred? then OkExpr(cc, x.node.starred) else OkExpr(cc, x)
  }

  ghost predicate OkItems(cc: CharClass, xs: seq<P.Node<P.Expr>>)
    decreases xs
  {
    forall i | 0 <= i < |xs| :: OkItem(cc, xs[i])
  }

  ghost predicate OkOption(cc: CharClass, x: Option<P.Node<P.Expr>>)
    decreases x
  {
    x.Some? ==> OkExpr(cc, x.value)
  }

  ghost predicate OkCall(cc: CharClass, call: P.CallExpr)
    decreases call
  {
    OkExpr(cc, call.func) && OkItems(cc, call.args) && OkKeywords(cc, call.keywords)
  }

  ghost predicate OkKeywords(cc: CharClass, xs: seq<P.Keyword>)
    decreases xs
  {
    forall i | 0 <= i < |xs| :: OkKeyword(cc, xs[i])
  }

  ghost predicate OkKeyword(cc: CharClass, x: P.Keyword)
    decreases x
  {
    NameOk(cc, x.arg) && OkOption(cc, x.value)
  }

  ghost predicate OkNames(cc: CharClass, xs: seq<P.Identifier>) { forall i | 0 <= i < |xs| :: NameOk(cc, xs[i]) }

  ghost predicate OkQuant(cc: CharClass, q: P.QuantExpr)
    decreases q
  {
    OkNames(cc, q.variables) && OkExpr(cc, q.target) && OkExpr(cc, q.test)
    && OkOption(cc, q.ifCond)
  }

  ghost predicate OkListIf(cc: CharClass, x: P.ListIfItemExpr)
    decreases x
  {
    && OkExpr(cc, x.ifCond) && OkItems(cc, x.exprs)
    && match x.orelse
       case NoListElse => true
       case ListElse(elts) => OkItems(cc, elts)
       case ListElif(_, listIf) => OkListIf(cc, listIf)
  }

  ghost predicate OkConfigIf(cc: CharClass, x: P.ConfigIfEntryExpr)
    decreases x
  {
    && OkExpr(cc, x.ifCond) && OkEntries(cc, x.items)
    && match x.orelse
       case NoConfigElse => true
       case ConfigElse(items) => OkEntries(cc, items)
       case ConfigElif(_, configIf) => OkConfigIf(cc, configIf)
  }

  ghost predicate OkEntries(cc: CharClass, xs: seq<P.Node<P.ConfigEntry>>)
    decreases xs
  {
    forall i | 0 <= i < |xs| :: OkEntry(cc, xs[i])
  }

  ghost predicate OkEntry(cc: CharClass, item: P.Node<P.ConfigEntry>)
    decreases item
  {
    && OkExpr(cc, item.node.value)
    && (item.node.key.Some? ==> OkKey(cc, item.node.key.value))
  }

  ghost predicate OkKey(cc: CharClass, key: P.Node<P.Expr>)
    decreases key, 1
  {
    if TakenApart(key.node) then forall part | part in key.node.identifier.names :: TextOk(cc, part.debug)
    else OkExpr(cc, key)
  }

  ghost predicate OkClauses(cc: CharClass, xs: seq<P.CompClause>)
    decreases xs
  {
    forall i | 0 <= i < |xs| :: OkClause(cc, xs[i])
  }

  ghost predicate OkClause(cc: CharClass, x: P.CompClause)
    decreases x
  {
    OkNames(cc, x.targets) && OkExpr(cc, x.iter) && OkExprs(cc, x.ifs)
  }

  ghost predicate OkSchemaExpr(cc: CharClass, x: P.SchemaExpr)
    decreases x
  {
    NameOk(cc, x.name) && OkItems(cc, x.args) && OkKeywords(cc, x.kwargs) && OkExpr(cc, x.config)
  }

  ghost predicate OkCheck(cc: CharClass, x: P.CheckExpr)
    decreases x
  {
    OkExpr(cc, x.test) && OkOption(cc, x.ifCond) && OkOption(cc, x.msg)
  }

  ghost predicate OkSubscript(cc: CharClass, x: P.Subscript)
    decreases x
  {
    OkExpr(cc, x.value) && OkOption(cc, x.index) && OkOption(cc, x.lower) && OkOption(cc, x.upper)
    && OkOption(cc, x.step)
  }

  ghost predicate OkArguments(cc: CharClass, x: P.Arguments)
    decreases x
  {
    forall i | 0 <= i < PS.ParameterCount(x) ::
      && NameOk(cc, x.args[i]) && (x.annotations[i].Some? ==> TextOk(cc, x.annotations[i].value))
      && OkOption(cc, x.defaults[i])
  }

  ghost predicate OkLambda(cc: CharClass, x: P.LambdaExpr)
    decreases x
  {
    && (x.args.Some? ==> OkArguments(cc, x.args.value)) && (x.returnType.Some? ==> TextOk(cc, x.returnType.value))
    && OkStmts(cc, x.body)
  }

  ghost predicate OkStmts(cc: CharClass, stmts: seq<P.Node<P.Stmt>>)
    decreases stmts
  {
    forall i | 0 <= i < |stmts| :: OkStmt(cc, stmts[i])
  }

  ghost predicate OkStmt(cc: CharClass, s: P.Node<P.Stmt>)
    decreases s
  {
    match s.node
    case TypeAlias(name, value) => NameOk(cc, name) && TextOk(cc, value)
    case ExprStmt(exprs) => OkItems(cc, exprs)
    case Unification(target, value) => NameOk(cc, target) && OkSchemaExpr(cc, value)
    case Assign(targets, ty, value) =>
      OkNames(cc, targets) && (ty.Some? ==> TextOk(cc, TypePrinter.Print(ty.value))) && OkExpr(cc, value)
    case AugAssign(target, _, value) => NameOk(cc, target) && OkExpr(cc, value)
    case Assert(check) => OkCheck(cc, check)
    case If(ifStmt) => OkIf(cc, ifStmt)
    case Import(path, asname) => TextOk(cc, path) && (asname.Some? ==> IsWord(cc, asname.value))
    case Attr(attr) => OkAttr(cc, attr)
    case SchemaDef(schema) => OkSchema(cc, schema)
    case RuleDef(rule) => OkRule(cc, rule)
  }

  ghost predicate OkIf(cc: CharClass, s: P.IfStmt)
    decreases s
  {
    OkExpr(cc, s.cond) && OkStmts(cc, s.body) && OkStmts(cc, s.orelse)
  }

  ghost predicate OkCalls(cc: CharClass, xs: seq<P.CallExpr>)
    decreases xs
  {
    forall i | 0 <= i < |xs| :: OkCall(cc, xs[i])
  }

  ghost predicate OkAttr(cc: CharClass, x: P.SchemaAttr)
    decreases x
  {
    OkCalls(cc, x.decorators) && IsWord(cc, x.name) && TextOk(cc, x.typeStr) && OkOption(cc, x.value)
    && (x.value.Some? ==> x.op.Some?)
  }

  ghost predicate OkSchema(cc: CharClass, x: P.SchemaStmt)
    decreases x
  {
    && OkCalls(cc, x.decorators) && IsWord(cc, x.name) && (x.args.Some? ==> OkArguments(cc, x.args.value))
    && (x.parentName.Some? ==> NameOk(cc, x.parentName.value))
    && (x.forHostName.Some? ==> NameOk(cc, x.forHostName.value))
    && (x.doc != "" ==> TextOk(cc, x.doc)) && OkNames(cc, x.mixins) && (x.index.Some? ==> OkIndex(cc, x.index.value))
    && OkStmts(cc, x.body) && OkChecks(cc, x.checks)
  }

  ghost predicate OkIndex(cc: CharClass, x: P.IndexSignature)
    decreases x
  {
    (x.keyName.Some? ==> IsWord(cc, x.keyName.value)) && TextOk(cc, x.keyType) && TextOk(cc, x.valueType)
    && OkOption(cc, x.value)
  }

  ghost predicate OkChecks(cc: CharClass, xs: seq<P.CheckExpr>)
    decreases xs
  {
    forall i | 0 <= i < |xs| :: OkCheck(cc, xs[i])
  }

  ghost predicate OkRule(cc: CharClass, x: P.RuleStmt)
    decreases x
  {
    && OkCalls(cc, x.decorators) && IsWord(cc, x.name) && (x.args.Some? ==> OkArguments(cc, x.args.value))
    && OkNames(cc, x.parentRules) && (x.forHostName.Some? ==> NameOk(cc, x.forHostName.value))
    && (x.doc != "" ==> TextOk(cc, x.doc)) && OkChecks(cc, x.checks)
  }

  ghost predicate OkModule(cc: CharClass, m: P.Module)
  {
    (m.doc != "" ==> TextOk(cc, m.doc)) && OkStmts(cc, m.body)
  }

  ghost predicate FieldsOk(cc: CharClass, names: seq<P.Part>)
  {
    forall i | 0 <= i < |names| :: AtomOk(cc, Field(names[i].text))
  }

  ghost predicate NameOk(cc: CharClass, x: P.Identifier)
  {
    x.names != [] && IsWord(cc, x.names[0].text) && FieldsOk(cc, x.names[1..])
  }
}
