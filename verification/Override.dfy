/** The override engine, kclvm/query/src/override.rs: a stateful walker that updates or deletes one
    field path in the configurations of one top-level name. */
module Override {
  import opened Wrappers
  import opened Strings
  import opened ConfigAst
  import opened OverrideLaws
  import opened NestAttr
  import opened OverrideMarks
  import opened ImportPaths
  import opened MultiAssign

  datatype Action = CreateOrUpdate | DeleteField

  /** An override request. `value` is the parsed field value; None when the text is empty. */
  datatype Spec = Spec(fieldPath: string, value: Option<Expr>, action: Action) {
    /** An update without a value is an internal error in the code. */
    predicate Usable() { action.CreateOrUpdate? ==> value.Some? }

    function Segments(): seq<string> { Split(fieldPath, '.') }
    predicate HasField() { |Segments()| > 1 }
    function Target(): string { Segments()[0] }
    function Field(): (p: Path)
      requires HasField()
    { Segments()[1..] }
  }

  /** The effect on the entries of a targeted configuration. */
  function Overridden(spec: Spec, items: seq<Entry>, parts: Path): seq<Entry>
    requires spec.Usable()
  {
    match spec.action
    case CreateOrUpdate => Put(items, parts, spec.value.value)
    case DeleteField => Delete(items, parts)
  }

  function OverriddenSchema(spec: Spec, s: SchemaExpr): SchemaExpr
    requires spec.Usable() && spec.HasField()
  {
    match s.config
    case Config(items) => s.(config := Config(Overridden(spec, items, spec.Field())))
    case _ => s
  }

  /** The statements an override may touch. */
  predicate Targeted(spec: Spec, s: Stmt)
  {
    match s
    case Unification(target, _) => target.first == spec.Target()
    case Assign(targets, Schema(_)) => exists i | 0 <= i < |targets| :: Names(targets[i], spec.Target())
    case _ => false
  }

  predicate Names(id: Identifier, name: string)
  {
    id.rest == [] && id.first == name
  }

  function OverriddenStmt(spec: Spec, s: Stmt): Stmt
    requires spec.Usable() && spec.HasField()
  {
    if !Targeted(spec, s) then s
    else match s
    case Unification(target, schema) => Unification(target, OverriddenSchema(spec, schema))
    case Assign(targets, Schema(schema)) => Assign(targets, Schema(OverriddenSchema(spec, schema)))
  }

  function OverriddenBody(spec: Spec, body: seq<Stmt>): seq<Stmt>
    requires spec.Usable() && spec.HasField()
  {
    seq(|body|, i requires 0 <= i < |body| => OverriddenStmt(spec, body[i]))
  }

  class OverrideTransformer {
    const spec: Spec
    var targetId: string
    var fieldPath: string
    var overrideTargetCount: nat
    var hasOverride: bool

    ghost predicate Valid()
      reads this
    {
      && spec.Usable() && spec.HasField()
      && targetId == spec.Target()
      && Split(fieldPath, '.') == spec.Field()
    }

    constructor (spec: Spec)
      requires spec.Usable() && spec.HasField()
      ensures Valid() && this.spec == spec && overrideTargetCount == 0 && !hasOverride
    {
      this.spec := spec;
      targetId := spec.Segments()[0];
      fieldPath := Join(spec.Segments()[1..], '.');
      overrideTargetCount := 0;
      hasOverride := false;
      SplitOfJoin(spec.Segments()[1..], '.');
    }

    // ----- lookup and replace -----

    method LookupConfigAndReplace(items: seq<Entry>) returns (items': seq<Entry>, changed: bool)
      requires Valid()
      ensures items' == Overridden(spec, items, spec.Field())
      ensures spec.action.CreateOrUpdate? ==> changed
    {
      items', changed := ReplaceConfigWithPathParts(items, Split(fieldPath, '.'));
    }

    /** The entries are `config_expr.items`, updated in place by the code. */
    method ReplaceConfigWithPathParts(items: seq<Entry>, parts: seq<string>) returns (items': seq<Entry>, changed: bool)
      requires spec.Usable()
      ensures parts == [] ==> items' == items && !changed
      ensures parts != [] ==> items' == Overridden(spec, items, parts)
      ensures parts != [] && spec.action.CreateOrUpdate? ==> changed
      decreases |parts|
    {
      if parts == [] { return items, false; }
      var part := parts[0];
      var deleteIndexSet: set<int> := {};
      items', changed := items, false;
      for i := 0 to |items|
        invariant |items'| == |items|
        invariant forall j | 0 <= j < |items| :: items'[j] == if j < i then VisitedEntry(items[j], parts) else items[j]
        invariant deleteIndexSet == DeleteIndices(items, parts, i)
        invariant spec.action.CreateOrUpdate? ==> changed == Finds(items[..i], parts)
      {
        if part == KeyPath(items'[i].key) {
          if |parts| == 1 {
            match spec.action {
              case CreateOrUpdate =>
                items' := items'[i := items'[i].(value := spec.value.value)];
                changed := true;
              case DeleteField =>
                deleteIndexSet := deleteIndexSet + {i};
                changed := true;
            }
          } else if ConfigOf(items'[i].value).Some? {
            var sub;
            sub, changed := ReplaceConfigWithPathParts(ConfigOf(items'[i].value).value, parts[1..]);
            items' := items'[i := items'[i].(value := WithConfig(items'[i].value, sub))];
            VisitedBelow(items[i], parts);
          }
        }
        assert items[..i + 1] == items[..i] + [items[i]];
        FindsAppend(items[..i], [items[i]], parts);
      }
      assert items[..|items|] == items && items' == Visited(items, parts);
      Concludes(items, parts);
      hide VisitedEntry, DeleteIndices;
      if deleteIndexSet != {} {
        var kept := [];
        for i := 0 to |items'|
          invariant kept == Kept(items', deleteIndexSet, i)
        {
          if i !in deleteIndexSet { kept := kept + [items'[i]]; }
        }
        items' := kept;
      } else if spec.action.CreateOrUpdate? {
        if !changed {
          items' := items' + [NewEntry(parts, spec.value.value)];
          changed := true;
        }
      }
    }

    /** The entries after the in-place pass of one visit, before deletions. */
    ghost function Visited(items: seq<Entry>, parts: Path): (r: seq<Entry>)
      requires spec.Usable()
      ensures |r| == |items|
    {
      seq(|items|, i requires 0 <= i < |items| => VisitedEntry(items[i], parts))
    }

    ghost function VisitedEntry(entry: Entry, parts: Path): Entry
      requires spec.Usable()
    {
      match spec.action
      case CreateOrUpdate => PutEntry(entry, parts, spec.value.value)
      case DeleteField => if |parts| == 1 || !Receives(entry, parts) then entry else DeleteEntry(entry, parts)[0]
    }

    lemma VisitedBelow(entry: Entry, parts: Path)
      requires spec.Usable() && Receives(entry, parts) && |parts| > 1
      ensures VisitedEntry(entry, parts)
        == entry.(value := WithConfig(entry.value, Overridden(spec, ConfigOf(entry.value).value, parts[1..])))
    {
      var sub := ConfigOf(entry.value).value;
      match spec.action {
        case CreateOrUpdate => assert PutBelow(entry.value, parts[1..], spec.value.value)
          == WithConfig(entry.value, Put(sub, parts[1..], spec.value.value));
        case DeleteField => assert DeleteBelow(entry.value, parts[1..])
          == WithConfig(entry.value, Delete(sub, parts[1..]));
      }
    }

    ghost function DeleteIndices(items: seq<Entry>, parts: Path, n: nat): set<int>
      requires n <= |items|
    {
      if spec.action.DeleteField? && |parts| == 1 then set i | 0 <= i < n && Receives(items[i], parts)
      else {}
    }

    static ghost function Kept(items: seq<Entry>, dropped: set<int>, n: nat): seq<Entry>
      requires n <= |items|
    {
      if n == 0 then []
      else Kept(items, dropped, n - 1) + if n - 1 in dropped then [] else [items[n - 1]]
    }

    static lemma {:induction false} FindsAppend(a: seq<Entry>, b: seq<Entry>, parts: Path)
      ensures Finds(a + b, parts) <==> Finds(a, parts) || Finds(b, parts)
      decreases |a|
    {
      if a == [] { assert a + b == b; }
      else {
        FindsAppend(a[1..], b, parts);
        assert (a + b)[1..] == a[1..] + b;
      }
    }

    lemma Concludes(items: seq<Entry>, parts: Path)
      requires spec.Usable()
      ensures spec.action.CreateOrUpdate? ==> Visited(items, parts) == PutEach(items, parts, spec.value.value)
      ensures var dropped := DeleteIndices(items, parts, |items|); spec.action.DeleteField? ==>
        && Kept(Visited(items, parts), dropped, |items|) == Delete(items, parts)
        && (dropped == {} ==> Visited(items, parts) == Delete(items, parts))
    {
      if spec.action.DeleteField? {
        KeptIsDelete(items, parts, |items|);
        assert items[..|items|] == items;
        KeptAll(Visited(items, parts), |items|);
      }
    }

    static lemma {:induction false} KeptAll(items: seq<Entry>, n: nat)
      requires n <= |items|
      ensures Kept(items, {}, n) == items[..n]
    {
      if n > 0 { KeptAll(items, n - 1); }
    }

    lemma {:induction false} KeptIsDelete(items: seq<Entry>, parts: Path, n: nat)
      requires spec.Usable() && spec.action.DeleteField? && n <= |items|
      ensures Kept(Visited(items, parts), DeleteIndices(items, parts, |items|), n) == Delete(items[..n], parts)
    {
      if n > 0 {
        KeptIsDelete(items, parts, n - 1);
        DeleteAppend(items[..n - 1], [items[n - 1]], parts);
        assert items[..n] == items[..n - 1] + [items[n - 1]];
        assert Delete([items[n - 1]], parts) == DeleteEntry(items[n - 1], parts);
      }
    }

    // ----- walker -----

    method WalkModule(body: seq<Stmt>) returns (body': seq<Stmt>)
      requires Valid() && overrideTargetCount == 0
      modifies this`overrideTargetCount, this`hasOverride
      ensures overrideTargetCount == 0
      ensures body' == OverriddenBody(spec, body)
      ensures hasOverride <==> old(hasOverride) || exists i | 0 <= i < |body| :: Targeted(spec, body[i])
    {
      body' := body;
      for i := 0 to |body|
        invariant |body'| == |body| && overrideTargetCount == 0
        invariant forall j | 0 <= j < |body| :: body'[j] == if j < i then OverriddenStmt(spec, body[j]) else body[j]
        invariant hasOverride <==> old(hasOverride) || exists j | 0 <= j < i :: Targeted(spec, body[j])
      {
        var s := WalkStmt(body'[i]);
        body' := body'[i := s];
      }
    }

    /** Every statement is entered with `override_target_count` at 0 and left with it at 0. */
    method WalkStmt(s: Stmt) returns (s': Stmt)
      requires Valid() && overrideTargetCount == 0
      modifies this`overrideTargetCount, this`hasOverride
      ensures overrideTargetCount == 0
      ensures s' == OverriddenStmt(spec, s)
      ensures hasOverride <==> old(hasOverride) || Targeted(spec, s)
    {
      s' := s;
      match s {
        case Unification(target, schema) => s' := WalkUnificationStmt(s);
        case Assign(targets, value) => s' := WalkAssignStmt(s);
        case Import(_, _) =>
        case If(_, _, _) =>      // overridden: not entered
        case SchemaStmt(_, _) => // overridden: not entered
        case Other(kind, exprs) =>
          var exprs' := WalkExprs(exprs);
          s' := Other(kind, exprs');
      }
    }

    method WalkUnificationStmt(s: Stmt) returns (s': Stmt)
      requires Valid() && s.Unification? && overrideTargetCount == 0
      modifies this`overrideTargetCount, this`hasOverride
      ensures overrideTargetCount == 0
      ensures s' == OverriddenStmt(spec, s)
      ensures hasOverride <==> old(hasOverride) || Targeted(spec, s)
    {
      if s.target.first != targetId { return s; }
      overrideTargetCount := 1;
      hasOverride := true;
      var schema := WalkSchemaExpr(s.schema);
      s' := s.(schema := schema);
    }

    method WalkAssignStmt(s: Stmt) returns (s': Stmt)
      requires Valid() && s.Assign? && overrideTargetCount == 0
      modifies this`overrideTargetCount, this`hasOverride
      ensures overrideTargetCount == 0
      ensures s' == OverriddenStmt(spec, s)
      ensures hasOverride <==> old(hasOverride) || Targeted(spec, s)
    {
      s' := s;
      if s.value.Schema? {
        overrideTargetCount := 0;
        for i := 0 to |s.targets|
          invariant hasOverride == old(hasOverride)
          invariant overrideTargetCount > 0 <==> exists j | 0 <= j < i :: Names(s.targets[j], spec.Target())
        {
          if s.targets[i].rest == [] && s.targets[i].first == targetId {
            overrideTargetCount := overrideTargetCount + 1;
            assert Names(s.targets[i], spec.Target());
          }
        }
        if overrideTargetCount == 0 { return; }
        hasOverride := true;
        var value := WalkExpr(s.value);
        s' := s.(value := value);
      }
    }

    method WalkSchemaExpr(s: SchemaExpr) returns (s': SchemaExpr)
      requires Valid()
      modifies this`overrideTargetCount
      ensures overrideTargetCount == 0
      ensures s' == if old(overrideTargetCount) == 0 then s else OverriddenSchema(spec, s)
    {
      s' := s;
      if overrideTargetCount == 0 { return; }
      if s.config.Config? {
        var items, changed := LookupConfigAndReplace(s.config.items);
        s' := s.(config := Config(items));
        if !changed && spec.action.CreateOrUpdate? {
          // The code appends the entry here; `replace_config_with_path_parts` already has.
          assert false;
        }
      }
      overrideTargetCount := 0;
    }

    method WalkExpr(e: Expr) returns (e': Expr)
      requires Valid() && (e.Schema? || overrideTargetCount == 0)
      modifies this`overrideTargetCount
      ensures overrideTargetCount == 0
      ensures e' == if old(overrideTargetCount) == 0 then e else Schema(OverriddenSchema(spec, e.schema))
      decreases e
    {
      match e {
        case IdentifierExpr(_) => e' := e;
        case StringLit(_) => e' := e;
        case Config(items) =>
          var items' := WalkConfigEntries(items);
          e' := Config(items');
        case Schema(schema) =>
          var schema' := WalkSchemaExpr(schema);
          e' := Schema(schema');
        case ConfigIf(cond, entries, orelse) =>
          var cond' := WalkExpr(cond);
          var entries' := WalkConfigEntries(entries);
          var orelse' := WalkOptionalExpr(orelse);
          e' := ConfigIf(cond', entries', orelse');
        case Lambda(_, _) => e' := e; // overridden: not entered
        case Compound(kind, children) =>
          var children' := WalkExprs(children);
          e' := Compound(kind, children');
      }
    }

    method WalkOptionalExpr(e: Option<Expr>) returns (e': Option<Expr>)
      requires Valid() && overrideTargetCount == 0
      modifies this`overrideTargetCount
      ensures overrideTargetCount == 0 && e' == e
      decreases e
    {
      e' := e;
      if e.Some? {
        var inner := WalkExpr(e.value);
        e' := Some(inner);
      }
    }

    method WalkExprs(es: seq<Expr>) returns (es': seq<Expr>)
      requires Valid() && overrideTargetCount == 0
      modifies this`overrideTargetCount
      ensures overrideTargetCount == 0 && es' == es
      decreases es
    {
      es' := es;
      for i := 0 to |es|
        invariant es' == es && overrideTargetCount == 0
      {
        var e := WalkExpr(es[i]);
        es' := es'[i := e];
      }
    }

    method WalkConfigEntries(items: seq<Entry>) returns (items': seq<Entry>)
      requires Valid() && overrideTargetCount == 0
      modifies this`overrideTargetCount
      ensures overrideTargetCount == 0 && items' == items
      decreases items
    {
      items' := items;
      for i := 0 to |items|
        invariant items' == items && overrideTargetCount == 0
      {
        var entry := WalkEntry(items[i]);
        items' := items'[i := entry];
      }
    }

    method WalkEntry(entry: Entry) returns (entry': Entry)
      requires Valid() && overrideTargetCount == 0
      modifies this`overrideTargetCount
      ensures overrideTargetCount == 0 && entry' == entry
      decreases entry
    {
      var key := WalkOptionalExpr(entry.key);
      var value := WalkExpr(entry.value);
      entry' := entry.(key := key, value := value);
    }
  }

  /** `apply_override_on_module`, on the statements of the module. None is a panic while adding the
      import statements. `order` is the order in which the assignments with several targets are split. */
  method ApplyOverrideOnModule(body: seq<Stmt>, spec: Spec, importPaths: seq<string>)
    returns (r: Option<(seq<Stmt>, bool)>, order: seq<nat>)
    requires spec.Usable()
    ensures var existing := ImportKeys(body);
      if !InsertsInRange(body, importPaths, existing, |importPaths|) then r == None
      else var imported := Merged(body, importPaths, existing, |importPaths|);
        if !spec.HasField() then r == Some((imported, false))
        else
          && r.Some? && Traversal(FixStmts(imported), order)
          && var split := Inserted(FixStmts(imported), order);
            && r.value.0 == OverriddenBody(spec, split)
            && (r.value.1 <==> exists i | 0 <= i < |split| :: Targeted(spec, split[i]))
  {
    hide InsertsInRange, Merged, ImportKeys, Traversal, Inserted, FixStmts, Targeted;
    order := [];
    var imported := ApplyImportPaths(body, importPaths);
    if imported.None? { return None, order; }
    if |Split(spec.fieldPath, '.')| <= 1 { return Some((imported.value, false)), order; }
    var fixed := FixStmts(imported.value);
    order := TraverseMapping(fixed);
    var split := TransformMultiAssign(fixed, order);
    var transformer := new OverrideTransformer(spec);
    var walked := transformer.WalkModule(split);
    return Some((walked, transformer.hasOverride)), order;
  }

  // ----- what an override means -----

  /** The configuration of a statement that declares one. */
  function DeclaredConfig(s: Stmt): Option<seq<Entry>>
  {
    match s
    case Unification(_, schema) => ConfigOf(Schema(schema))
    case Assign(_, value) => ConfigOf(value)
    case _ => None
  }

  lemma FixKeepsTargets(spec: Spec, s: Stmt)
    ensures Targeted(spec, FixStmt(s)) <==> Targeted(spec, s)
  {
  }

  lemma TargetedConfig(spec: Spec, s: Stmt)
    requires spec.Usable() && spec.HasField() && Targeted(spec, s) && DeclaredConfig(s).Some?
    ensures DeclaredConfig(OverriddenStmt(spec, FixStmt(s)))
      == Some(Overridden(spec, FixEntries(DeclaredConfig(s).value), spec.Field()))
  {
    FixKeepsTargets(spec, s);
    match s {
      case Unification(_, schema) => FixedConfigOf(Schema(schema));
      case Assign(_, value) => FixedConfigOf(value);
    }
  }

  /** What an update makes of the configuration of `s`, seen at the path `q`. */
  predicate Updated(spec: Spec, s: Stmt, s': Stmt, q: Path)
    requires spec.HasField() && spec.value.Some? && DeclaredConfig(s).Some?
  {
    var after, field := DeclaredConfig(s'), spec.Field();
    && after.Some?
    && ValuesAt(after.value, field, false) != []
    && (forall x | x in ValuesAt(after.value, field, false) :: x == spec.value.value)
    && (Unrelated(field, q) ==>
      ValuesAt(after.value, q, true) == FixExprs(ValuesAt(DeclaredConfig(s).value, q, true)))
    && PutMarks(MeantAt(DeclaredConfig(s).value, q), MarksAt(after.value, q), field, spec.value.value, q)
  }

  predicate Deleted(spec: Spec, s: Stmt, s': Stmt, q: Path)
    requires spec.HasField() && DeclaredConfig(s).Some?
  {
    var after, field := DeclaredConfig(s'), spec.Field();
    && after.Some?
    && (field <= q ==> ValuesAt(after.value, q, false) == [])
    && (Unrelated(field, q) ==>
      ValuesAt(after.value, q, true) == FixExprs(ValuesAt(DeclaredConfig(s).value, q, true)))
    && DeleteMarks(MeantAt(DeclaredConfig(s).value, q), MarksAt(after.value, q), field, q)
  }

  /** An update of a targeted statement, with dotted and duplicate keys: in its configuration the
      field occurs, every occurrence holds the new value, and at every path that neither leads to
      the field nor lies below it the leaf values are the original ones in order. The entries found keep their
      keys, operations and insert indices, and those appended at the field override. */
  lemma UpdateIsLawful(spec: Spec, s: Stmt, q: Path)
    requires spec.Usable() && spec.HasField() && spec.action.CreateOrUpdate?
    requires Targeted(spec, s) && DeclaredConfig(s).Some?
    ensures Updated(spec, s, OverriddenStmt(spec, FixStmt(s)), q)
  {
    TargetedConfig(spec, s);
    var items, field, value := DeclaredConfig(s).value, spec.Field(), spec.value.value;
    FixedIsNormal(items);
    FixKeepsLeaves(items, q);
    PutReaches(FixEntries(items), field, value);
    PutAllLaw(FixEntries(items), field, value, field, false);
    PutAllLaw(FixEntries(items), field, value, q, true);
    FixKeepsMarks(items, q);
    PutAllMarks(FixEntries(items), field, value, q);
    assert field[|field|..] == [];
    assert ValuesBelow(value, [], false) == [value];
  }

  /** A deletion in a targeted statement: nothing is left at or below the field, the other paths keep their
      leaf values and the other entries their keys, operations and insert indices, and repeating the deletion
      changes nothing. */
  lemma DeletionIsLawful(spec: Spec, s: Stmt, q: Path)
    requires spec.HasField() && spec.action.DeleteField?
    requires Targeted(spec, s) && DeclaredConfig(s).Some?
    ensures var once := OverriddenStmt(spec, FixStmt(s));
      Deleted(spec, s, once, q) && OverriddenStmt(spec, once) == once
  {
    var once := OverriddenStmt(spec, FixStmt(s));
    DeletedOnce(spec, s, q);
    DeletedAgain(spec, s);
  }

  lemma DeletedOnce(spec: Spec, s: Stmt, q: Path)
    requires spec.HasField() && spec.action.DeleteField?
    requires Targeted(spec, s) && DeclaredConfig(s).Some?
    ensures Deleted(spec, s, OverriddenStmt(spec, FixStmt(s)), q)
  {
    TargetedConfig(spec, s);
    hide OverriddenStmt, FixStmt, Targeted;
    var items, field := DeclaredConfig(s).value, spec.Field();
    FixedIsNormal(items);
    FixKeepsLeaves(items, q);
    DeleteAllLaw(FixEntries(items), field, q, false);
    DeleteAllLaw(FixEntries(items), field, q, true);
    FixKeepsMarks(items, q);
    DeleteAllMarks(FixEntries(items), field, q);
    hide ValuesAt, Delete, FixEntries, FixExprs, MarksAt, MeantAt;
  }

  lemma DeletedAgain(spec: Spec, s: Stmt)
    requires spec.HasField() && spec.action.DeleteField?
    requires Targeted(spec, s) && DeclaredConfig(s).Some?
    ensures var once := OverriddenStmt(spec, FixStmt(s)); OverriddenStmt(spec, once) == once
  {
    TargetedConfig(spec, s);
    DeleteTwice(FixEntries(DeclaredConfig(s).value), spec.Field());
    hide Delete, FixEntries, FixExprs;
  }
}
