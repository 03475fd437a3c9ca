/** The syntax tree the pretty printer walks, kclvm/ast/src/ast.rs: every node with the line it starts
    on, and without the fields the printer never reads. */
module PrettyAst {
  import opened Wrappers
  import opened Numbers
  import TypePrinter

  datatype Node<T> = Node(node: T, line: nat)

  datatype Comment = Comment(text: string, line: nat)

  datatype Module = Module(doc: string, body: seq<Node<Stmt>>, comments: seq<Comment>)

  /** A part of a dotted name, with what the regular expression for plain names says about it, and its
      debug form. */
  datatype Part = Part(text: string, isPlain: bool, debug: string)

  datatype Identifier = Identifier(names: seq<Part>)

  datatype Stmt =
    | TypeAlias(typeName: Identifier, typeValue: string)
    | ExprStmt(exprs: seq<Node<Expr>>)
    | Unification(target: Identifier, schemaValue: SchemaExpr)
    | Assign(targets: seq<Identifier>, ty: Option<TypePrinter.Type>, value: Node<Expr>)
    | AugAssign(augTarget: Identifier, augOp: AugOp, augValue: Node<Expr>)
    /** An assertion has the parts of a check. */
    | Assert(check: CheckExpr)
    | If(ifStmt: IfStmt)
    | Import(path: string, asname: Option<string>)
    | Attr(attr: SchemaAttr)
    | SchemaDef(schema: SchemaStmt)
    | RuleDef(rule: RuleStmt)

  datatype IfStmt = IfStmt(cond: Node<Expr>, body: seq<Node<Stmt>>, orelse: seq<Node<Stmt>>)

  datatype SchemaAttr = SchemaAttr(
    decorators: seq<CallExpr>, name: string, isOptional: bool, typeStr: string,
    op: Option<BinOrAugOp>, value: Option<Node<Expr>>)

  datatype SchemaStmt = SchemaStmt(
    doc: string, name: string, parentName: Option<Identifier>, forHostName: Option<Identifier>,
    isMixin: bool, isProtocol: bool, args: Option<Arguments>, mixins: seq<Identifier>,
    body: seq<Node<Stmt>>, decorators: seq<CallExpr>, checks: seq<CheckExpr>, index: Option<IndexSignature>)

  datatype IndexSignature = IndexSignature(
    keyName: Option<string>, keyType: string, valueType: string, value: Option<Node<Expr>>, anyOther: bool)

  datatype RuleStmt = RuleStmt(
    doc: string, name: string, parentRules: seq<Identifier>, decorators: seq<CallExpr>,
    checks: seq<CheckExpr>, args: Option<Arguments>, forHostName: Option<Identifier>)

  datatype Expr =
    | Ident(identifier: Identifier)
    | Unary(unaryOp: UnaryOp, operand: Node<Expr>)
    | Binary(left: Node<Expr>, op: BinOrCmpOp, right: Node<Expr>)
    | IfExpr(body: Node<Expr>, cond: Node<Expr>, orelse: Node<Expr>)
    | Selector(value: Node<Expr>, attr: Identifier, hasQuestion: bool)
    | Call(call: CallExpr)
    | Paren(expr: Node<Expr>)
    | Quant(quant: QuantExpr)
    | ListExpr(elts: seq<Node<Expr>>)
    | ListIfItem(listIf: ListIfItemExpr)
    | ListComp(elt: Node<Expr>, listGenerators: seq<CompClause>)
    | Starred(starred: Node<Expr>)
    | DictComp(dictKey: Node<Expr>, operation: EntryOperation, dictValue: Node<Expr>, dictGenerators: seq<CompClause>)
    | ConfigIfEntry(configIf: ConfigIfEntryExpr)
    | Comp(clause: CompClause)
    | Schema(schema: SchemaExpr)
    | Config(items: seq<Node<ConfigEntry>>)
    | Check(check: CheckExpr)
    | Lambda(lambda: LambdaExpr)
    | Sub(subscript: Subscript)
    | KeywordArg(keyword: Keyword)
    | Args(arguments: Arguments)
    | Compare(first: Node<Expr>, ops: seq<CmpOp>, comparators: seq<Node<Expr>>)
    | NumberLit(number: NumberValue, suffix: Option<Suffix>)
    | StringLit(str: StringValue)
    | NameConstantLit(constant: NameConstant)
    | JoinedString(isLongString: bool, values: seq<Node<Expr>>)
    | FormattedValue(formatted: Node<Expr>, formatSpec: Option<string>)
    | Missing

  datatype CallExpr = CallExpr(func: Node<Expr>, args: seq<Node<Expr>>, keywords: seq<Keyword>)

  datatype SchemaExpr = SchemaExpr(
    name: Identifier, args: seq<Node<Expr>>, kwargs: seq<Keyword>, config: Node<Expr>)

  datatype QuantExpr = QuantExpr(
    target: Node<Expr>, variables: seq<Identifier>, op: QuantOperation, test: Node<Expr>, ifCond: Option<Node<Expr>>)

  /** The source lets any expression stand after `else` and stops with an internal error on other kinds. */
  datatype ListIfItemExpr = ListIfItemExpr(ifCond: Node<Expr>, exprs: seq<Node<Expr>>, orelse: ListElse)
  datatype ListElse = NoListElse | ListElse(elts: seq<Node<Expr>>) | ListElif(line: nat, listIf: ListIfItemExpr)

  datatype ConfigIfEntryExpr =
    ConfigIfEntryExpr(ifCond: Node<Expr>, items: seq<Node<ConfigEntry>>, orelse: ConfigElse)
  datatype ConfigElse =
    NoConfigElse | ConfigElse(items: seq<Node<ConfigEntry>>) | ConfigElif(line: nat, configIf: ConfigIfEntryExpr)

  datatype ConfigEntry = ConfigEntry(
    key: Option<Node<Expr>>, value: Node<Expr>, operation: EntryOperation, insertIndex: int)

  datatype CompClause = CompClause(targets: seq<Identifier>, iter: Node<Expr>, ifs: seq<Node<Expr>>)

  datatype CheckExpr = CheckExpr(test: Node<Expr>, ifCond: Option<Node<Expr>>, msg: Option<Node<Expr>>)

  datatype LambdaExpr = LambdaExpr(args: Option<Arguments>, returnType: Option<string>, body: seq<Node<Stmt>>)

  datatype Subscript = Subscript(
    value: Node<Expr>, index: Option<Node<Expr>>, lower: Option<Node<Expr>>, upper: Option<Node<Expr>>,
    step: Option<Node<Expr>>, hasQuestion: bool)

  datatype Keyword = Keyword(arg: Identifier, value: Option<Node<Expr>>)

  datatype Arguments = Arguments(
    args: seq<Identifier>, annotations: seq<Option<string>>, defaults: seq<Option<Node<Expr>>>)

  /** A float by the text Rust displays it with. */
  datatype NumberValue = IntValue(i: int) | FloatValue(text: string)

  datatype StringValue = StringValue(isLongString: bool, rawValue: string, value: string)

  datatype NameConstant = True | False | None_ | Undefined {
    function Symbol(): string
    {
      match this case True => "True" case False => "False" case None_ => "None" case Undefined => "Undefined"
    }
  }

  datatype QuantOperation = All | Any | Filter | Map {
    function Symbol(): string
    {
      match this case All => "all" case Any => "any" case Filter => "filter" case Map => "map"
    }
  }

  datatype EntryOperation = Union | Override | Insert {
    function Symbol(): string { match this case Union => ":" case Override => "=" case Insert => "+=" }
  }

  datatype UnaryOp = UAdd | USub | Invert | Not {
    function Symbol(): string { match this case UAdd => "+" case USub => "-" case Invert => "~" case Not => "not" }
  }

  datatype ArithOp = Add | Minus | Mul | Div | Mod | Pow | FloorDiv | LShift | RShift | BitXor | BitAnd | BitOr {
    function Symbol(): string
    {
      match this
      case Add => "+" case Minus => "-" case Mul => "*" case Div => "/" case Mod => "%" case Pow => "**"
      case FloorDiv => "//" case LShift => "<<" case RShift => ">>" case BitXor => "^" case BitAnd => "&"
      case BitOr => "|"
    }
  }

  datatype BinOp = Arith(arith: ArithOp) | And | Or | As {
    function Symbol(): string
    {
      match this case Arith(arith) => arith.Symbol() case And => "and" case Or => "or" case As => "as"
    }
  }

  datatype AugOp = PlainAssign | AugArith(arith: ArithOp) {
    function Symbol(): string
    {
      match this case PlainAssign => "=" case AugArith(arith) => arith.Symbol() + "="
    }
  }

  datatype CmpOp = Eq | NotEq | Lt | LtE | Gt | GtE | Is | In | NotIn | CmpNot | IsNot {
    function Symbol(): string
    {
      match this
      case Eq => "==" case NotEq => "!=" case Lt => "<" case LtE => "<=" case Gt => ">" case GtE => ">="
      case Is => "is" case In => "in" case NotIn => "not in" case CmpNot => "not" case IsNot => "is not"
    }
  }

  datatype BinOrCmpOp = Bin(bin: BinOp) | Cmp(cmp: CmpOp) {
    function Symbol(): string { match this case Bin(bin) => bin.Symbol() case Cmp(cmp) => cmp.Symbol() }
  }

  datatype BinOrAugOp = BinOrAugBin(bin: BinOp) | Aug(aug: AugOp) {
    function Symbol(): string { match this case BinOrAugBin(bin) => bin.Symbol() case Aug(aug) => aug.Symbol() }
  }
}
