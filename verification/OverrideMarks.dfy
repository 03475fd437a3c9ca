/** What happens to the entries themselves, their keys, operations and insert indices, when a path is updated or
    deleted, kclvm/query/src/override.rs:332-422, and when nested keys are split,
    kclvm/sema/src/pre_process/config.rs:10-85. */
module OverrideMarks {
  import opened Wrappers
  import opened ConfigAst
  import opened OverrideLaws
  import opened NestAttr

  /** An entry without its value. */
  datatype Mark = Mark(key: Option<Expr>, operation: Operation, insertIndex: int)

  function MarkOf(entry: Entry): Mark { Mark(entry.key, entry.operation, entry.insertIndex) }

  /** The entries whose keys lead exactly to `path`, in order. */
  function MarksAt(items: seq<Entry>, path: Path): seq<Mark>
    decreases |path|, |items|
  {
    if items == [] then [] else EntryMarks(items[0], path) + MarksAt(items[1..], path)
  }

  function EntryMarks(entry: Entry, path: Path): seq<Mark>
    decreases |path|, 0
  {
    var segs := KeySegments(entry.key);
    if segs == path then [MarkOf(entry)]
    else if segs < path then MarksBelow(entry.value, path[|segs|..])
    else []
  }

  function MarksBelow(e: Expr, path: Path): seq<Mark>
    decreases |path|, if ConfigOf(e).Some? then |ConfigOf(e).value| + 1 else 0
  {
    match ConfigOf(e) case None => [] case Some(items) => MarksAt(items, path)
  }

  lemma {:induction false} MarksAppend(a: seq<Entry>, b: seq<Entry>, path: Path)
    ensures MarksAt(a + b, path) == MarksAt(a, path) + MarksAt(b, path)
    decreases |a|
  {
    hide EntryMarks;
    if a == [] {
      assert a + b == b;
    } else {
      assert (a + b)[1..] == a[1..] + b && (a + b)[0] == a[0];
      MarksAppend(a[1..], b, path);
    }
  }

  lemma OneMark(entry: Entry, path: Path)
    ensures MarksAt([entry], path) == EntryMarks(entry, path)
  {
    assert MarksAt([entry], path) == EntryMarks(entry, path) + [];
  }

  // ----- update -----

  /** An entry that an update has appended: it overrides, at no index, under a name. */
  predicate Appended(m: Mark)
  {
    m.operation == Override && m.insertIndex == -1 && m.key.Some? && m.key.value.IdentifierExpr?
  }

  /** The entries before with appended ones between. */
  predicate Interleaved(before: seq<Mark>, after: seq<Mark>)
    decreases |after|
  {
    if after == [] then before == []
    else
      || (before != [] && after[0] == before[0] && Interleaved(before[1..], after[1..]))
      || (Appended(after[0]) && Interleaved(before, after[1..]))
  }

  lemma {:induction false} InterleavedSelf(before: seq<Mark>)
    ensures Interleaved(before, before)
    decreases |before|
  {
    if before != [] { InterleavedSelf(before[1..]); }
  }

  lemma {:induction false} InterleavedAppend(b1: seq<Mark>, a1: seq<Mark>, b2: seq<Mark>, a2: seq<Mark>)
    requires Interleaved(b1, a1) && Interleaved(b2, a2)
    ensures Interleaved(b1 + b2, a1 + a2)
    decreases |a1|
  {
    if a1 == [] {
      assert b1 + b2 == b2 && a1 + a2 == a2;
    } else {
      assert (a1 + a2)[1..] == a1[1..] + a2;
      if b1 != [] && a1[0] == b1[0] && Interleaved(b1[1..], a1[1..]) {
        InterleavedAppend(b1[1..], a1[1..], b2, a2);
        assert (b1 + b2)[1..] == b1[1..] + b2;
      } else {
        InterleavedAppend(b1, a1[1..], b2, a2);
      }
    }
  }

  /** How the entries at `q` before an update of `parts` relate to those after it: at the path the old ones are
      kept and appended ones join them, below it they are those of the new value, and elsewhere nothing changes. */
  predicate PutMarks(before: seq<Mark>, after: seq<Mark>, parts: Path, value: Expr, q: Path)
  {
    && (!(parts <= q) ==> after == before)
    && (parts == q ==> Interleaved(before, after))
    && (parts < q ==> forall m | m in after :: m in MarksBelow(value, q[|parts|..]))
  }

  lemma PutMarksAppend(b1: seq<Mark>, a1: seq<Mark>, b2: seq<Mark>, a2: seq<Mark>, parts: Path, value: Expr, q: Path)
    requires PutMarks(b1, a1, parts, value, q) && PutMarks(b2, a2, parts, value, q)
    ensures PutMarks(b1 + b2, a1 + a2, parts, value, q)
  {
    if parts == q { InterleavedAppend(b1, a1, b2, a2); }
  }

  lemma {:induction false} PutEntryMarks(entry: Entry, parts: Path, value: Expr, q: Path)
    requires NormalEntry(entry)
    ensures PutMarks(EntryMarks(entry, q), EntryMarks(PutEntry(entry, parts, value), q), parts, value, q)
    decreases |parts|, 0
  {
    hide Interleaved;
    var segs := KeySegments(entry.key);
    assert segs == [KeyPath(entry.key)];
    var before, after := EntryMarks(entry, q), EntryMarks(PutEntry(entry, parts, value), q);
    if after == before && parts == q { InterleavedSelf(before); }
    if Receives(entry, parts) && |parts| > 1 && segs < q {
      assert q == segs + q[1..];
      PutAllMarks(ConfigOf(entry.value).value, parts[1..], value, q[1..]);
      PutMarksBelow(MarksBelow(entry.value, q[1..]), MarksBelow(PutBelow(entry.value, parts[1..], value), q[1..]),
                    parts, value, q);
    }
  }

  /** The law one segment further down is the law here. */
  lemma PutMarksBelow(before: seq<Mark>, after: seq<Mark>, parts: Path, value: Expr, q: Path)
    requires |parts| > 1 && |q| > 1 && parts[0] == q[0] && PutMarks(before, after, parts[1..], value, q[1..])
    ensures PutMarks(before, after, parts, value, q)
  {
    hide Interleaved, MarksBelow;
    assert parts == [parts[0]] + parts[1..] && q == [q[0]] + q[1..];
    assert parts <= q ==> q[1..][|parts[1..]|..] == q[|parts|..];
  }

  lemma {:induction false} PutEachMarks(items: seq<Entry>, parts: Path, value: Expr, q: Path)
    requires Normal(items)
    ensures PutMarks(MarksAt(items, q), MarksAt(PutEach(items, parts, value), q), parts, value, q)
    decreases |parts|, |items| + 1
  {
    hide PutEntry, EntryMarks;
    if items != [] {
      PutEntryMarks(items[0], parts, value, q);
      PutEachMarks(items[1..], parts, value, q);
      PutMarksAppend(EntryMarks(items[0], q), EntryMarks(PutEntry(items[0], parts, value), q),
                     MarksAt(items[1..], q), MarksAt(PutEach(items[1..], parts, value), q), parts, value, q);
    }
  }

  /** An update keeps every entry that it finds, with its key, operation and index; and what it appends, at the path
      only, has the override operation and no index. */
  lemma {:induction false} PutAllMarks(items: seq<Entry>, parts: Path, value: Expr, q: Path)
    requires Normal(items)
    ensures PutMarks(MarksAt(items, q), MarksAt(Put(items, parts, value), q), parts, value, q)
    decreases |parts|, |items| + 2
  {
    hide EntryMarks;
    PutEachMarks(items, parts, value, q);
    if !Finds(items, parts) {
      var added := NewEntry(parts, value);
      MarksAppend(PutEach(items, parts, value), [added], q);
      OneMark(added, q);
      NewEntryMarks(parts, value, q);
      PutMarksAppend(MarksAt(items, q), MarksAt(PutEach(items, parts, value), q), [], EntryMarks(added, q),
                     parts, value, q);
      assert MarksAt(items, q) + [] == MarksAt(items, q);
    }
  }

  lemma NewEntryMarks(parts: Path, value: Expr, q: Path)
    ensures PutMarks([], EntryMarks(NewEntry(parts, value), q), parts, value, q)
  {
    var added := NewEntry(parts, value);
    assert KeySegments(added.key) == parts;
    assert Appended(MarkOf(added)) && Interleaved([], [MarkOf(added)]);
  }
  // ----- deletion -----

  /** A deletion leaves no entry at or below the path, and every other entry as it is. */
  predicate DeleteMarks(before: seq<Mark>, after: seq<Mark>, parts: Path, q: Path)
  {
    after == if parts <= q then [] else before
  }

  lemma {:induction false} DeleteEntryMarks(entry: Entry, parts: Path, q: Path)
    requires NormalEntry(entry)
    ensures DeleteMarks(EntryMarks(entry, q), MarksAt(DeleteEntry(entry, parts), q), parts, q)
    decreases |parts|, 0
  {
    var segs := KeySegments(entry.key);
    assert segs == [KeyPath(entry.key)];
    if Receives(entry, parts) && |parts| == 1 {
      assert segs == parts;
    } else {
      var after := DeleteEntry(entry, parts)[0];
      OneMark(after, q);
      if Receives(entry, parts) && segs < q {
        assert parts == segs + parts[1..] && q == segs + q[1..];
        DeleteAllMarks(ConfigOf(entry.value).value, parts[1..], q[1..]);
        assert parts <= q <==> parts[1..] <= q[1..];
      } else {
        NotReceived(entry, parts, q);
      }
    }
  }

  lemma NotReceived(entry: Entry, parts: Path, q: Path)
    requires KeySegments(entry.key) == [KeyPath(entry.key)]
    requires !Receives(entry, parts) || (|parts| > 1 && !(KeySegments(entry.key) < q))
    ensures parts <= q ==> EntryMarks(entry, q) == []
  {
    assert parts <= q && |parts| > 1 ==> [parts[0]] < q;
  }

  /** Whatever duplicates the keys have. */
  lemma {:induction false} DeleteAllMarks(items: seq<Entry>, parts: Path, q: Path)
    requires Normal(items)
    ensures DeleteMarks(MarksAt(items, q), MarksAt(Delete(items, parts), q), parts, q)
    decreases |parts|, |items| + 1
  {
    hide EntryMarks, DeleteEntry;
    if items != [] {
      DeleteEntryMarks(items[0], parts, q);
      DeleteAllMarks(items[1..], parts, q);
      MarksAppend(DeleteEntry(items[0], parts), Delete(items[1..], parts), q);
    }
  }

  // ----- the key pass -----

  /** The entries at `path` that a configuration with dotted keys stands for: each name of a key is an entry of its
      own; the last one has the operation, the ones before are unions, and the first one has the insert index. */
  function MeantAt(items: seq<Entry>, path: Path): seq<Mark>
    decreases |path|, |items|
  {
    if items == [] then [] else MeantBy(items[0], path) + MeantAt(items[1..], path)
  }

  function MeantBy(entry: Entry, path: Path): seq<Mark>
    decreases |path|, 0
  {
    var segs := KeySegments(entry.key);
    if path <= segs then
      var n := |path|;
      var key := if |segs| == 1 then entry.key else Some(IdentifierExpr(Identifier(path[n - 1], [])));
      [Mark(key, if n == |segs| then entry.operation else Union, if n == 1 then entry.insertIndex else -1)]
    else if segs < path then MeantBelow(entry.value, path[|segs|..])
    else []
  }

  function MeantBelow(e: Expr, path: Path): seq<Mark>
    decreases |path|, if ConfigOf(e).Some? then |ConfigOf(e).value| + 1 else 0
  {
    match ConfigOf(e) case None => [] case Some(items) => MeantAt(items, path)
  }

  /** One name of a nested key. */
  lemma NestedOne(name: string, value: Expr, operation: Operation, q: Path)
    ensures MarksBelow(Config([Entry(Some(IdentifierExpr(Identifier(name, []))), value, operation, -1)]), q)
      == if [name] == q then [Mark(Some(IdentifierExpr(Identifier(name, []))), operation, -1)]
         else if [name] < q then MarksBelow(value, q[1..]) else []
  {
    var entry := Entry(Some(IdentifierExpr(Identifier(name, []))), value, operation, -1);
    assert KeySegments(entry.key) == [name];
    OneMark(entry, q);
  }

  lemma {:induction false} NestedMarks(names: seq<string>, value: Expr, operation: Operation, q: Path)
    requires names != []
    ensures MarksBelow(NestedValue(names, value, operation), q)
      == if q <= names then
           [Mark(Some(IdentifierExpr(Identifier(q[|q| - 1], []))), if |q| == |names| then operation else Union, -1)]
         else if names < q then MarksBelow(value, q[|names|..]) else []
    decreases |names|
  {
    hide MarksBelow, NestedValue;
    if |names| == 1 {
      NestedLast(names, value, operation);
      NestedOne(names[0], value, operation, q);
    } else {
      NestedNext(names, value, operation);
      var rest := names[1..];
      NestedOne(names[0], NestedValue(rest, value, operation), Union, q);
      if [names[0]] < q {
        NestedMarks(rest, value, operation, q[1..]);
        SameBehind(names, q);
      }
    }
  }

  lemma SameBehind(names: seq<string>, q: Path)
    requires |names| > 1 && |q| > 1 && names[0] == q[0]
    ensures q <= names <==> q[1..] <= names[1..]
    ensures names < q <==> names[1..] < q[1..]
    ensures names < q ==> q[1..][|names[1..]|..] == q[|names|..]
  {
    assert names == [names[0]] + names[1..] && q == [q[0]] + q[1..];
  }

  lemma NestedLast(names: seq<string>, value: Expr, operation: Operation)
    requires |names| == 1
    ensures NestedValue(names, value, operation)
      == Config([Entry(Some(IdentifierExpr(Identifier(names[0], []))), value, operation, -1)])
  {
  }

  lemma NestedNext(names: seq<string>, value: Expr, operation: Operation)
    requires |names| > 1
    ensures NestedValue(names, value, operation)
      == Config([Entry(Some(IdentifierExpr(Identifier(names[0], []))), NestedValue(names[1..], value, operation),
                       Union, -1)])
  {
  }

  /** The marks of an entry whose value has been through the pass. */
  lemma {:induction false} FixEntryMarks(entry: Entry, q: Path)
    requires forall rest: Path | |rest| < |q| :: MarksBelow(FixExpr(entry.value), rest) == MeantBelow(entry.value, rest)
    ensures EntryMarks(FixEntry(entry), q) == MeantBy(entry, q)
  {
    hide FixExpr, MarksBelow, MeantBelow;
    var segs := KeySegments(entry.key);
    match entry.key {
      case Some(IdentifierExpr(Identifier(first, rest))) =>
        if rest != [] {
          assert segs == [first] + rest && KeySegments(FixEntry(entry).key) == [first];
          if [first] < q {
            NestedMarks(rest, FixExpr(entry.value), entry.operation, q[1..]);
            SameBehind(segs, q);
            assert segs[1..] == rest;
          }
        }
      case _ =>
    }
  }

  lemma {:induction false} FixBelowMarks(e: Expr, q: Path)
    ensures MarksBelow(FixExpr(e), q) == MeantBelow(e, q)
    decreases |q|, if ConfigOf(e).Some? then |ConfigOf(e).value| + 2 else 0
  {
    FixedConfigOf(e);
    if ConfigOf(e).Some? { FixKeepsMarks(ConfigOf(e).value, q); }
  }

  /** After the pass the entries are exactly those that the dotted keys stand for. */
  lemma {:induction false} FixKeepsMarks(items: seq<Entry>, q: Path)
    ensures MarksAt(FixEntries(items), q) == MeantAt(items, q)
    decreases |q|, |items| + 1
  {
    hide EntryMarks, MeantBy, MarksBelow, MeantBelow, FixExpr, FixEntry;
    if items != [] {
      forall rest: Path | |rest| < |q|
        ensures MarksBelow(FixExpr(items[0].value), rest) == MeantBelow(items[0].value, rest)
      {
        FixBelowMarks(items[0].value, rest);
      }
      FixEntryMarks(items[0], q);
      FixKeepsMarks(items[1..], q);
      assert FixEntries(items)[0] == FixEntry(items[0]) && FixEntries(items)[1..] == FixEntries(items[1..]);
    }
  }
  // ----- the whole pass -----

  /** No key is dotted, in any configuration anywhere inside the expression. */
  predicate Plain(e: Expr)
    decreases e
  {
    match e
    case Config(items) => forall i | 0 <= i < |items| :: PlainEntry(items[i])
    case Schema(s) => PlainSchema(s)
    case ConfigIf(_, entries, orelse) =>
      (forall i | 0 <= i < |entries| :: PlainEntry(entries[i])) && (orelse.Some? ==> Plain(orelse.value))
    case Lambda(defaults, body) =>
      (forall i | 0 <= i < |defaults| :: Plain(defaults[i])) && forall i | 0 <= i < |body| :: PlainStmt(body[i])
    case Compound(_, children) => forall i | 0 <= i < |children| :: Plain(children[i])
    case _ => true
  }

  predicate PlainSchema(s: SchemaExpr)
    decreases s
  {
    (forall i | 0 <= i < |s.args| :: Plain(s.args[i])) && Plain(s.config)
  }

  predicate PlainEntry(entry: Entry)
    decreases entry
  {
    |KeySegments(entry.key)| == 1 && Plain(entry.value)
  }

  predicate PlainStmt(s: Stmt)
    decreases s
  {
    match s
    case Import(_, _) => true
    case Unification(_, schema) => PlainSchema(schema)
    case Assign(_, value) => Plain(value)
    case If(cond, body, orelse) =>
      && Plain(cond) && (forall i | 0 <= i < |body| :: PlainStmt(body[i]))
      && forall i | 0 <= i < |orelse| :: PlainStmt(orelse[i])
    case SchemaStmt(exprs, body) =>
      (forall i | 0 <= i < |exprs| :: Plain(exprs[i])) && forall i | 0 <= i < |body| :: PlainStmt(body[i])
    case Other(_, exprs) => forall i | 0 <= i < |exprs| :: Plain(exprs[i])
  }

  lemma {:induction false} NestedIsPlain(names: seq<string>, value: Expr, operation: Operation)
    requires names != [] && Plain(value)
    ensures Plain(NestedValue(names, value, operation))
    decreases |names|
  {
    if |names| > 1 { NestedIsPlain(names[1..], value, operation); }
  }

  lemma {:induction false} FixedEntryIsPlain(entry: Entry)
    ensures PlainEntry(FixEntry(entry)) && (PlainEntry(entry) ==> FixEntry(entry) == entry)
    decreases entry
  {
    FixedIsPlain(entry.value);
    match entry.key {
      case Some(IdentifierExpr(Identifier(_, rest))) =>
        if rest != [] { NestedIsPlain(rest, FixExpr(entry.value), entry.operation); }
      case _ =>
    }
  }

  lemma {:induction false} FixedEntriesArePlain(items: seq<Entry>)
    ensures forall i | 0 <= i < |items| :: PlainEntry(FixEntries(items)[i])
    ensures (forall i | 0 <= i < |items| :: PlainEntry(items[i])) ==> FixEntries(items) == items
    decreases items
  {
    forall i | 0 <= i < |items|
      ensures PlainEntry(FixEntry(items[i])) && (PlainEntry(items[i]) ==> FixEntry(items[i]) == items[i])
    {
      FixedEntryIsPlain(items[i]);
    }
  }

  lemma {:induction false} FixedExprsArePlain(es: seq<Expr>)
    ensures |FixExprs(es)| == |es| && forall i | 0 <= i < |es| :: Plain(FixExprs(es)[i])
    ensures (forall i | 0 <= i < |es| :: Plain(es[i])) ==> FixExprs(es) == es
    decreases es
  {
    forall i | 0 <= i < |es| ensures Plain(FixExpr(es[i])) && (Plain(es[i]) ==> FixExpr(es[i]) == es[i]) {
      FixedIsPlain(es[i]);
    }
  }

  lemma {:induction false} FixedStmtsArePlain(stmts: seq<Stmt>)
    ensures forall i | 0 <= i < |stmts| :: PlainStmt(FixStmts(stmts)[i])
    ensures (forall i | 0 <= i < |stmts| :: PlainStmt(stmts[i])) ==> FixStmts(stmts) == stmts
    decreases stmts
  {
    forall i | 0 <= i < |stmts|
      ensures PlainStmt(FixStmt(stmts[i])) && (PlainStmt(stmts[i]) ==> FixStmt(stmts[i]) == stmts[i])
    {
      FixedStmtIsPlain(stmts[i]);
    }
  }

  lemma {:induction false} FixedSchemaIsPlain(s: SchemaExpr)
    ensures PlainSchema(FixSchema(s)) && (PlainSchema(s) ==> FixSchema(s) == s)
    decreases s
  {
    FixedExprsArePlain(s.args);
    FixedIsPlain(s.config);
  }

  /** After the pass no key is dotted anywhere, and the pass leaves alone what has no dotted key. */
  lemma {:induction false} FixedIsPlain(e: Expr)
    ensures Plain(FixExpr(e)) && (Plain(e) ==> FixExpr(e) == e)
    decreases e
  {
    match e
    case Config(items) => FixedEntriesArePlain(items);
    case Schema(s) => FixedSchemaIsPlain(s);
    case ConfigIf(_, entries, orelse) =>
      FixedEntriesArePlain(entries);
      if orelse.Some? { FixedIsPlain(orelse.value); }
    case Lambda(defaults, body) =>
      FixedExprsArePlain(defaults);
      FixedStmtsArePlain(body);
    case Compound(_, children) => FixedExprsArePlain(children);
    case _ =>
  }

  lemma {:induction false} FixedStmtIsPlain(s: Stmt)
    ensures PlainStmt(FixStmt(s)) && (PlainStmt(s) ==> FixStmt(s) == s)
    decreases s
  {
    match s
    case Import(_, _) =>
    case Unification(_, schema) => FixedSchemaIsPlain(schema);
    case Assign(_, value) => FixedIsPlain(value);
    case If(cond, body, orelse) =>
      FixedIsPlain(cond);
      FixedStmtsArePlain(body);
      FixedStmtsArePlain(orelse);
    case SchemaStmt(exprs, body) =>
      FixedExprsArePlain(exprs);
      FixedStmtsArePlain(body);
    case Other(_, exprs) => FixedExprsArePlain(exprs);
  }
}
