/** Normalising nested attribute keys, kclvm/sema/src/pre_process/config.rs:10-85:
    `{a.b.c = 1}` becomes `{a: {b: {c = 1}}}` everywhere in a module. */
module NestAttr {
  import opened Wrappers
  import opened ConfigAst

  function FixExpr(e: Expr): Expr
    decreases e
  {
    match e
    case Config(items) => Config(FixEntries(items))
    case Schema(s) => Schema(FixSchema(s))
    case ConfigIf(cond, entries, orelse) =>
      ConfigIf(cond, FixEntries(entries), if orelse.Some? then Some(FixExpr(orelse.value)) else None)
    case Lambda(defaults, body) => Lambda(FixExprs(defaults), FixStmts(body))
    case Compound(kind, children) => Compound(kind, FixExprs(children))
    case _ => e
  }

  function FixSchema(s: SchemaExpr): SchemaExpr
    decreases s
  {
    SchemaExpr(s.name, FixExprs(s.args), FixExpr(s.config))
  }

  function FixExprs(es: seq<Expr>): seq<Expr>
    decreases es
  {
    seq(|es|, i requires 0 <= i < |es| => FixExpr(es[i]))
  }

  function FixEntries(items: seq<Entry>): (r: seq<Entry>)
    ensures |r| == |items|
    decreases items
  {
    seq(|items|, i requires 0 <= i < |items| => FixEntry(items[i]))
  }

  function FixEntry(entry: Entry): Entry
    decreases entry
  {
    NestKey(entry.(value := FixExpr(entry.value)))
  }

  function FixStmts(stmts: seq<Stmt>): (r: seq<Stmt>)
    decreases stmts
  {
    seq(|stmts|, i requires 0 <= i < |stmts| => FixStmt(stmts[i]))
  }

  function FixStmt(s: Stmt): Stmt
    decreases s
  {
    match s
    case Import(_, _) => s
    case Unification(target, schema) => Unification(target, FixSchema(schema))
    case Assign(targets, value) => Assign(targets, FixExpr(value))
    case If(cond, body, orelse) => If(FixExpr(cond), FixStmts(body), FixStmts(orelse))
    case SchemaStmt(exprs, body) => SchemaStmt(FixExprs(exprs), FixStmts(body))
    case Other(kind, exprs) => Other(kind, FixExprs(exprs))
  }

  /** One entry: a dotted key keeps its first name, the others become nested configurations. Only
      the innermost keeps the entry's operation. */
  function NestKey(entry: Entry): Entry
  {
    match entry.key
    case Some(IdentifierExpr(Identifier(first, rest))) =>
      if rest == [] then entry
      else Entry(Some(IdentifierExpr(Identifier(first, []))), NestedValue(rest, entry.value, entry.operation),
                 Union, entry.insertIndex)
    case _ => entry
  }

  function NestedValue(names: seq<string>, value: Expr, operation: Operation): Expr
    requires names != []
  {
    var key := Some(IdentifierExpr(Identifier(names[0], [])));
    if |names| == 1 then Config([Entry(key, value, operation, -1)])
    else Config([Entry(key, NestedValue(names[1..], value, operation), Union, -1)])
  }

  lemma {:induction false} NestedNormal(names: seq<string>, value: Expr, operation: Operation)
    requires names != []
    requires ConfigOf(value).Some? ==> Normal(ConfigOf(value).value)
    ensures Normal(NestedValue(names, value, operation).items)
    decreases |names|
  {
    if |names| > 1 { NestedNormal(names[1..], value, operation); }
  }

  /** After the pass every key is one segment, at every depth of every configuration. */
  lemma {:induction false} FixedIsNormal(items: seq<Entry>)
    ensures Normal(FixEntries(items))
    decreases items
  {
    forall i | 0 <= i < |items| ensures NormalEntry(FixEntry(items[i])) {
      FixedEntryIsNormal(items[i]);
    }
  }

  lemma FixedConfigOf(e: Expr)
    ensures ConfigOf(FixExpr(e))
      == match ConfigOf(e) case Some(items) => Some(FixEntries(items)) case None => None
  {
    if e.Schema? { assert FixSchema(e.schema).config == FixExpr(e.schema.config); }
  }

  lemma {:induction false} FixedEntryIsNormal(entry: Entry)
    ensures NormalEntry(FixEntry(entry))
    decreases entry
  {
    FixedConfigOf(entry.value);
    if ConfigOf(entry.value).Some? { FixedIsNormal(ConfigOf(entry.value).value); }
    match entry.key {
      case Some(IdentifierExpr(Identifier(_, rest))) =>
        if rest != [] { NestedNormal(rest, FixExpr(entry.value), entry.operation); }
      case _ =>
    }
  }

  lemma SingletonLeaves(name: string, value: Expr, operation: Operation, q: seq<string>)
    ensures ValuesBelow(Config([Entry(Some(IdentifierExpr(Identifier(name, []))), value, operation, -1)]), q, true)
      == if [name] <= q then ValuesBelow(value, q[1..], true) else []
  {
    if q != [] {
      var entry := Entry(Some(IdentifierExpr(Identifier(name, []))), value, operation, -1);
      assert KeySegments(entry.key) == [name];
      assert ValuesAt([entry], q, true) == EntryValues(entry, q, true) + [];
    }
  }

  /** The leaf values below nested names are those of the innermost value. */
  lemma {:induction false} NestedLeaves(names: seq<string>, value: Expr, operation: Operation, q: seq<string>)
    requires names != []
    ensures ValuesBelow(NestedValue(names, value, operation), q, true)
      == if names <= q then ValuesBelow(value, q[|names|..], true) else []
    decreases |names|
  {
    assert names == [names[0]] + names[1..];
    if |names| == 1 {
      SingletonLeaves(names[0], value, operation, q);
    } else {
      SingletonLeaves(names[0], NestedValue(names[1..], value, operation), Union, q);
      if [names[0]] <= q {
        NestedLeaves(names[1..], value, operation, q[1..]);
        assert q == [q[0]] + q[1..];
        assert names <= q <==> names[1..] <= q[1..];
        assert names <= q ==> q[1..][|names[1..]|..] == q[|names|..];
      }
    }
  }

  lemma NestKeyLeaves(entry: Entry, q: seq<string>)
    requires q != []
    ensures EntryValues(NestKey(entry), q, true) == EntryValues(entry, q, true)
  {
    match entry.key {
      case Some(IdentifierExpr(Identifier(first, rest))) =>
        if rest != [] {
          var segs := [first] + rest;
          assert KeySegments(NestKey(entry).key) == [first];
          NestedLeaves(rest, entry.value, entry.operation, q[1..]);
          assert q == [q[0]] + q[1..];
          assert segs <= q <==> q[0] == first && rest <= q[1..];
          assert segs <= q ==> q[1..][|rest|..] == q[|segs|..];
        }
      case _ =>
    }
  }

  lemma FixExprsAppend(a: seq<Expr>, b: seq<Expr>)
    ensures FixExprs(a + b) == FixExprs(a) + FixExprs(b)
  {
  }

  lemma {:induction false} FixBelowKeepsLeaves(e: Expr, q: seq<string>)
    ensures ValuesBelow(FixExpr(e), q, true) == FixExprs(ValuesBelow(e, q, true))
    decreases |q|, if ConfigOf(e).Some? then |ConfigOf(e).value| + 2 else 0
  {
    FixedConfigOf(e);
    if ConfigOf(e).Some? && q != [] { FixKeepsLeaves(ConfigOf(e).value, q); }
  }

  /** The pass preserves meaning: the non-configuration values at every path stay, in order (each
      with the same pass applied inside it). */
  lemma {:induction false} FixKeepsLeaves(items: seq<Entry>, q: seq<string>)
    requires q != []
    ensures ValuesAt(FixEntries(items), q, true) == FixExprs(ValuesAt(items, q, true))
    decreases |q|, |items| + 1
  {
    if items != [] {
      var entry := items[0];
      NestKeyLeaves(entry.(value := FixExpr(entry.value)), q);
      FixBelowKeepsLeaves(entry.value, if KeySegments(entry.key) <= q then q[|KeySegments(entry.key)|..] else []);
      FixKeepsLeaves(items[1..], q);
      assert FixEntries(items)[1..] == FixEntries(items[1..]);
      FixExprsAppend(EntryValues(entry, q, true), ValuesAt(items[1..], q, true));
    }
  }
}
