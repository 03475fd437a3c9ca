/** The part of the syntax tree that configuration overrides look at, kclvm/ast/src/ast.rs,
    and the meaning of a configuration: which values occur at which path.

    Expression and statement kinds that no override code treats specially are `Compound` and
    `Other`: every walker only visits their children. */
module ConfigAst {
  import opened Wrappers
  import opened Strings

  datatype Identifier = Identifier(first: string, rest: seq<string>) {
    function Names(): seq<string> { [first] + rest }
  }

  datatype Operation = Union | Override | Insert

  datatype Entry = Entry(key: Option<Expr>, value: Expr, operation: Operation, insertIndex: int)

  datatype SchemaExpr = SchemaExpr(name: Identifier, args: seq<Expr>, config: Expr)

  datatype Expr =
    | IdentifierExpr(id: Identifier)
    | StringLit(text: string)
    | Config(items: seq<Entry>)
    | Schema(schema: SchemaExpr)
    | ConfigIf(cond: Expr, entries: seq<Entry>, orelse: Option<Expr>)
    | Lambda(defaults: seq<Expr>, body: seq<Stmt>)
    | Compound(kind: string, children: seq<Expr>)

  datatype Stmt =
    | Import(path: string, asname: Option<string>)
    | Unification(target: Identifier, schema: SchemaExpr)
    | Assign(targets: seq<Identifier>, value: Expr)
    | If(cond: Expr, body: seq<Stmt>, orelse: seq<Stmt>)
    | SchemaStmt(exprs: seq<Expr>, body: seq<Stmt>)
    | Other(kind: string, exprs: seq<Expr>)

  /** `get_key_path`: a key's name, "" for an entry without a name. */
  function KeyPath(key: Option<Expr>): string
  {
    match key
    case Some(IdentifierExpr(id)) => Join(id.Names(), '.')
    case Some(StringLit(text)) => text
    case _ => ""
  }

  /** The path segments a key stands for; an entry without a name sits at the segment "". */
  function KeySegments(key: Option<Expr>): (segs: seq<string>)
    ensures |segs| > 0
  {
    match key
    case Some(IdentifierExpr(id)) => id.Names()
    case Some(StringLit(text)) => [text]
    case _ => [""]
  }

  /** `try_get_config_expr_mut`: the entries of a config or of a schema instance. */
  function ConfigOf(e: Expr): Option<seq<Entry>>
  {
    match e
    case Config(items) => Some(items)
    case Schema(SchemaExpr(_, _, Config(items))) => Some(items)
    case _ => None
  }

  /** Writing back through that reference. */
  function WithConfig(e: Expr, items: seq<Entry>): (e': Expr)
    requires ConfigOf(e).Some?
    ensures ConfigOf(e') == Some(items)
    ensures items == ConfigOf(e).value ==> e' == e
  {
    match e
    case Config(_) => Config(items)
    case Schema(s) => Schema(s.(config := Config(items)))
  }

  /** The values found at `path` in entry order; `leaves` keeps only those that are not
      themselves configurations. */
  function ValuesAt(items: seq<Entry>, path: seq<string>, leaves: bool): seq<Expr>
    requires path != []
    decreases |path|, |items|
  {
    if items == [] then [] else EntryValues(items[0], path, leaves) + ValuesAt(items[1..], path, leaves)
  }

  function EntryValues(entry: Entry, path: seq<string>, leaves: bool): seq<Expr>
    requires path != []
    decreases |path|, 0
  {
    var segs := KeySegments(entry.key);
    if segs <= path then ValuesBelow(entry.value, path[|segs|..], leaves) else []
  }

  function ValuesBelow(e: Expr, path: seq<string>, leaves: bool): seq<Expr>
    decreases |path|, if ConfigOf(e).Some? then |ConfigOf(e).value| + 1 else 0
  {
    match ConfigOf(e)
    case None => if path == [] then [e] else []
    case Some(items) => if path == [] then (if leaves then [] else [e]) else ValuesAt(items, path, leaves)
  }

  /** Every key of the configuration is a single segment, at every depth. */
  predicate Normal(items: seq<Entry>)
  {
    forall i | 0 <= i < |items| :: NormalEntry(items[i])
  }

  predicate NormalEntry(entry: Entry)
  {
    |KeySegments(entry.key)| == 1
    && (ConfigOf(entry.value).Some? ==> Normal(ConfigOf(entry.value).value))
  }

  lemma {:induction false} ValuesAtAppend(a: seq<Entry>, b: seq<Entry>, path: seq<string>, leaves: bool)
    requires path != []
    ensures ValuesAt(a + b, path, leaves) == ValuesAt(a, path, leaves) + ValuesAt(b, path, leaves)
    decreases |a|
  {
    hide EntryValues;
    if a == [] {
      assert a + b == b;
    } else {
      assert (a + b)[1..] == a[1..] + b && (a + b)[0] == a[0];
      ValuesAtAppend(a[1..], b, path, leaves);
    }
  }
}
