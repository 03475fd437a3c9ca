/** What updating and deleting a path does to a configuration, and the laws of both,
    kclvm/query/src/override.rs:332-422. */
module OverrideLaws {
  import opened Wrappers
  import opened ConfigAst

  type Path = p: seq<string> | p != [] witness [""]

  function NewEntry(parts: Path, value: Expr): Entry
  {
    Entry(Some(IdentifierExpr(Identifier(parts[0], parts[1..]))), value, Override, -1)
  }

  /** Whether an update of `parts` finds a place for its value at this entry. */
  predicate Receives(entry: Entry, parts: Path)
  {
    KeyPath(entry.key) == parts[0] && (|parts| == 1 || ConfigOf(entry.value).Some?)
  }

  predicate Finds(items: seq<Entry>, parts: Path)
  {
    items != [] && (Receives(items[0], parts) || Finds(items[1..], parts))
  }

  /** An update writes every entry that leads to the path; if no entry does, it appends one. */
  function Put(items: seq<Entry>, parts: Path, value: Expr): seq<Entry>
    decreases |parts|, |items| + 1
  {
    if Finds(items, parts) then PutEach(items, parts, value)
    else PutEach(items, parts, value) + [NewEntry(parts, value)]
  }

  function PutEach(items: seq<Entry>, parts: Path, value: Expr): (r: seq<Entry>)
    ensures |r| == |items|
    ensures forall i | 0 <= i < |items| :: r[i] == PutEntry(items[i], parts, value)
    decreases |parts|, |items|
  {
    if items == [] then [] else [PutEntry(items[0], parts, value)] + PutEach(items[1..], parts, value)
  }

  function PutEntry(entry: Entry, parts: Path, value: Expr): Entry
    decreases |parts|, 0
  {
    if !Receives(entry, parts) then entry
    else if |parts| == 1 then entry.(value := value)
    else entry.(value := PutBelow(entry.value, parts[1..], value))
  }

  /** The effect on a value that sits on the way to the path. */
  function PutBelow(e: Expr, parts: Path, value: Expr): Expr
    decreases |parts|, if ConfigOf(e).Some? then |ConfigOf(e).value| + 2 else 0
  {
    match ConfigOf(e)
    case Some(items) => WithConfig(e, Put(items, parts, value))
    case None => e
  }

  /** A deletion removes every entry at the path. */
  function Delete(items: seq<Entry>, parts: Path): seq<Entry>
    decreases |parts|, |items|
  {
    if items == [] then []
    else DeleteEntry(items[0], parts) + Delete(items[1..], parts)
  }

  function DeleteEntry(entry: Entry, parts: Path): seq<Entry>
    decreases |parts|, 0
  {
    if !Receives(entry, parts) then [entry]
    else if |parts| == 1 then []
    else [entry.(value := DeleteBelow(entry.value, parts[1..]))]
  }

  function DeleteBelow(e: Expr, parts: Path): Expr
    decreases |parts|, if ConfigOf(e).Some? then |ConfigOf(e).value| + 1 else 0
  {
    match ConfigOf(e)
    case Some(items) => WithConfig(e, Delete(items, parts))
    case None => e
  }

  function PutBelowAll(es: seq<Expr>, parts: Path, value: Expr): seq<Expr>
  {
    seq(|es|, i requires 0 <= i < |es| => PutBelow(es[i], parts, value))
  }

  function DeleteBelowAll(es: seq<Expr>, parts: Path): seq<Expr>
  {
    seq(|es|, i requires 0 <= i < |es| => DeleteBelow(es[i], parts))
  }

  predicate Unrelated(p: seq<string>, q: seq<string>)
  {
    !(p <= q) && !(q <= p)
  }

  // ----- update -----

  /** How the values at `q` before an update of `parts` relate to those after it. */
  predicate PutLaw(before: seq<Expr>, after: seq<Expr>, parts: Path, value: Expr, q: Path, leaves: bool)
  {
    && (Unrelated(parts, q) ==> after == before)
    && (parts <= q ==> forall x | x in after :: x in ValuesBelow(value, q[|parts|..], leaves))
    && (q < parts && !leaves ==> after == PutBelowAll(before, parts[|q|..], value))
  }

  lemma PutLawAppend(b1: seq<Expr>, a1: seq<Expr>, b2: seq<Expr>, a2: seq<Expr>,
                     parts: Path, value: Expr, q: Path, leaves: bool)
    requires PutLaw(b1, a1, parts, value, q, leaves) && PutLaw(b2, a2, parts, value, q, leaves)
    ensures PutLaw(b1 + b2, a1 + a2, parts, value, q, leaves)
  {
  }

  lemma {:induction false} PutEntryLaw(entry: Entry, parts: Path, value: Expr, q: Path, leaves: bool)
    requires NormalEntry(entry)
    ensures PutLaw(EntryValues(entry, q, leaves), EntryValues(PutEntry(entry, parts, value), q, leaves),
                   parts, value, q, leaves)
    decreases |parts|, 0
  {
    var segs := KeySegments(entry.key);
    assert segs == [KeyPath(entry.key)];
    if segs <= q && Receives(entry, parts) && |parts| > 1 {
      assert parts == segs + parts[1..] && q == segs + q[1..];
      if |q| > 1 {
        PutAllLaw(ConfigOf(entry.value).value, parts[1..], value, q[1..], leaves);
        PutLawBelow(entry.value, parts, value, q, leaves);
      }
    }
  }

  /** The law one segment further down is the law here. */
  lemma PutLawBelow(e: Expr, parts: Path, value: Expr, q: Path, leaves: bool)
    requires ConfigOf(e).Some? && |parts| > 1 && |q| > 1 && parts[0] == q[0]
    requires var items := ConfigOf(e).value;
      PutLaw(ValuesAt(items, q[1..], leaves), ValuesAt(Put(items, parts[1..], value), q[1..], leaves),
             parts[1..], value, q[1..], leaves)
    ensures PutLaw(ValuesBelow(e, q[1..], leaves), ValuesBelow(PutBelow(e, parts[1..], value), q[1..], leaves),
                   parts, value, q, leaves)
  {
    hide PutBelowAll, ValuesAt, Put;
    assert parts == parts[..1] + parts[1..] && q == q[..1] + q[1..];
    assert |q| < |parts| ==> parts[1..][|q[1..]|..] == parts[|q|..];
    assert |parts| <= |q| ==> q[1..][|parts[1..]|..] == q[|parts|..];
  }

  lemma {:induction false} PutEachLaw(items: seq<Entry>, parts: Path, value: Expr, q: Path, leaves: bool)
    requires Normal(items)
    ensures PutLaw(ValuesAt(items, q, leaves), ValuesAt(PutEach(items, parts, value), q, leaves),
                   parts, value, q, leaves)
    decreases |parts|, |items| + 1
  {
    if items != [] {
      PutEntryLaw(items[0], parts, value, q, leaves);
      PutEachLaw(items[1..], parts, value, q, leaves);
      PutLawAppend(EntryValues(items[0], q, leaves), EntryValues(PutEntry(items[0], parts, value), q, leaves),
                   ValuesAt(items[1..], q, leaves), ValuesAt(PutEach(items[1..], parts, value), q, leaves),
                   parts, value, q, leaves);
    }
  }

  /** An update is felt at `q` exactly as `PutLaw` says, whatever duplicates the keys have. */
  lemma {:induction false} PutAllLaw(items: seq<Entry>, parts: Path, value: Expr, q: Path, leaves: bool)
    requires Normal(items)
    ensures PutLaw(ValuesAt(items, q, leaves), ValuesAt(Put(items, parts, value), q, leaves),
                   parts, value, q, leaves)
    decreases |parts|, |items| + 2
  {
    PutEachLaw(items, parts, value, q, leaves);
    if !Finds(items, parts) {
      var added := NewEntry(parts, value);
      assert KeySegments(added.key) == parts;
      ValuesAtAppend(PutEach(items, parts, value), [added], q, leaves);
      PutLawAppend(ValuesAt(items, q, leaves), ValuesAt(PutEach(items, parts, value), q, leaves),
                   [], ValuesAt([added], q, leaves), parts, value, q, leaves);
      assert ValuesAt(items, q, leaves) + [] == ValuesAt(items, q, leaves);
    }
  }

  lemma {:induction false} PutEachReaches(items: seq<Entry>, parts: Path, value: Expr)
    requires Normal(items) && Finds(items, parts)
    ensures ValuesAt(PutEach(items, parts, value), parts, false) != []
    decreases |parts|, |items|
  {
    var entry := items[0];
    assert KeySegments(entry.key) == [KeyPath(entry.key)];
    if !Receives(entry, parts) {
      PutEachReaches(items[1..], parts, value);
    } else if |parts| == 1 {
      assert parts[1..] == [] && KeySegments(entry.key) <= parts;
      assert EntryValues(PutEntry(entry, parts, value), parts, false) == [value];
    } else {
      var after := PutEntry(entry, parts, value);
      assert KeySegments(after.key) <= parts;
      PutReaches(ConfigOf(entry.value).value, parts[1..], value);
      assert EntryValues(after, parts, false) == ValuesAt(ConfigOf(after.value).value, parts[1..], false);
    }
  }

  /** After an update the path occurs. */
  lemma {:induction false} PutReaches(items: seq<Entry>, parts: Path, value: Expr)
    requires Normal(items)
    ensures ValuesAt(Put(items, parts, value), parts, false) != []
    decreases |parts|, |items| + 1
  {
    if Finds(items, parts) {
      PutEachReaches(items, parts, value);
    } else {
      var added := NewEntry(parts, value);
      assert KeySegments(added.key) == parts && parts[|parts|..] == [];
      assert EntryValues(added, parts, false) == [value];
      ValuesAtAppend(PutEach(items, parts, value), [added], parts, false);
    }
  }

  // ----- deletion -----

  /** How the values at `q` before a deletion of `parts` relate to those after it. */
  predicate DeleteLaw(before: seq<Expr>, after: seq<Expr>, parts: Path, q: Path, leaves: bool)
  {
    && (Unrelated(parts, q) ==> after == before)
    && (parts <= q ==> after == [])
    && (q < parts && !leaves ==> after == DeleteBelowAll(before, parts[|q|..]))
  }

  lemma DeleteLawAppend(b1: seq<Expr>, a1: seq<Expr>, b2: seq<Expr>, a2: seq<Expr>,
                        parts: Path, q: Path, leaves: bool)
    requires DeleteLaw(b1, a1, parts, q, leaves) && DeleteLaw(b2, a2, parts, q, leaves)
    ensures DeleteLaw(b1 + b2, a1 + a2, parts, q, leaves)
  {
  }

  lemma {:induction false} DeleteEntryLaw(entry: Entry, parts: Path, q: Path, leaves: bool)
    requires NormalEntry(entry)
    ensures DeleteLaw(EntryValues(entry, q, leaves), ValuesAt(DeleteEntry(entry, parts), q, leaves),
                      parts, q, leaves)
    decreases |parts|, 0
  {
    var segs := KeySegments(entry.key);
    assert segs == [KeyPath(entry.key)];
    if Receives(entry, parts) && |parts| == 1 {
      assert segs == parts;
    } else {
      var after := DeleteEntry(entry, parts)[0];
      assert ValuesAt([after], q, leaves) == EntryValues(after, q, leaves) + [];
      if segs <= q && Receives(entry, parts) && |q| > 1 {
        assert parts == segs + parts[1..] && q == segs + q[1..];
        DeleteAllLaw(ConfigOf(entry.value).value, parts[1..], q[1..], leaves);
        DeleteLawBelow(entry.value, parts, q, leaves);
      }
    }
  }

  /** The law one segment further down is the law here. */
  lemma DeleteLawBelow(e: Expr, parts: Path, q: Path, leaves: bool)
    requires ConfigOf(e).Some? && |parts| > 1 && |q| > 1 && parts[0] == q[0]
    requires var items := ConfigOf(e).value;
      DeleteLaw(ValuesAt(items, q[1..], leaves), ValuesAt(Delete(items, parts[1..]), q[1..], leaves),
                parts[1..], q[1..], leaves)
    ensures DeleteLaw(ValuesBelow(e, q[1..], leaves), ValuesBelow(DeleteBelow(e, parts[1..]), q[1..], leaves),
                      parts, q, leaves)
  {
    hide DeleteBelowAll, ValuesAt, Delete;
    assert parts == parts[..1] + parts[1..] && q == q[..1] + q[1..];
    assert |q| < |parts| ==> parts[1..][|q[1..]|..] == parts[|q|..];
  }

  /** A deletion is felt at `q` exactly as `DeleteLaw` says: nothing is left at or below the path. */
  lemma {:induction false} DeleteAllLaw(items: seq<Entry>, parts: Path, q: Path, leaves: bool)
    requires Normal(items)
    ensures DeleteLaw(ValuesAt(items, q, leaves), ValuesAt(Delete(items, parts), q, leaves), parts, q, leaves)
    decreases |parts|, |items| + 1
  {
    if items != [] {
      DeleteEntryLaw(items[0], parts, q, leaves);
      DeleteAllLaw(items[1..], parts, q, leaves);
      ValuesAtAppend(DeleteEntry(items[0], parts), Delete(items[1..], parts), q, leaves);
      DeleteLawAppend(EntryValues(items[0], q, leaves), ValuesAt(DeleteEntry(items[0], parts), q, leaves),
                      ValuesAt(items[1..], q, leaves), ValuesAt(Delete(items[1..], parts), q, leaves),
                      parts, q, leaves);
    }
  }

  lemma {:induction false} DeleteAppend(a: seq<Entry>, b: seq<Entry>, parts: Path)
    ensures Delete(a + b, parts) == Delete(a, parts) + Delete(b, parts)
    decreases |a|
  {
    hide DeleteEntry;
    if a == [] {
      assert a + b == b;
    } else {
      DeleteAppend(a[1..], b, parts);
      assert (a + b)[0] == a[0] && (a + b)[1..] == a[1..] + b;
    }
  }

  lemma {:induction false} DeleteEntryTwice(entry: Entry, parts: Path)
    ensures Delete(DeleteEntry(entry, parts), parts) == DeleteEntry(entry, parts)
    ensures NormalEntry(entry) ==> Normal(DeleteEntry(entry, parts))
    decreases |parts|, 0
  {
    if !Receives(entry, parts) {
      assert Delete([entry], parts) == [entry] + [];
    } else if |parts| > 1 {
      var after := DeleteEntry(entry, parts)[0];
      var sub := ConfigOf(entry.value).value;
      DeleteTwice(sub, parts[1..]);
      assert DeleteBelow(entry.value, parts[1..]) == WithConfig(entry.value, Delete(sub, parts[1..]));
      assert after.value == DeleteBelow(entry.value, parts[1..]);
      assert DeleteBelow(after.value, parts[1..]) == after.value;
      assert Delete([after], parts) == DeleteEntry(after, parts) + [] == [after];
    }
  }

  /** Deleting twice is deleting once, and a deletion keeps keys single-segment. */
  lemma {:induction false} DeleteTwice(items: seq<Entry>, parts: Path)
    ensures Delete(Delete(items, parts), parts) == Delete(items, parts)
    ensures Normal(items) ==> Normal(Delete(items, parts))
    decreases |parts|, |items| + 1
  {
    if items != [] {
      DeleteEntryTwice(items[0], parts);
      DeleteTwice(items[1..], parts);
      DeleteAppend(DeleteEntry(items[0], parts), Delete(items[1..], parts), parts);
    }
  }
  // ----- schema values -----

  /** Updates, deletions and lookups go into the configuration of a schema value as into a plain one. */
  lemma SchemaValuesAreEntered(name: string, schema: SchemaExpr, sub: seq<Entry>, parts: Path, value: Expr,
                               operation: Operation, leaves: bool)
    requires schema.config == Config(sub)
    ensures var key := Some(IdentifierExpr(Identifier(name, [])));
      var items := [Entry(key, Schema(schema), operation, -1)];
      var path := [name] + parts;
      && Put(items, path, value)
        == [Entry(key, Schema(schema.(config := Config(Put(sub, parts, value)))), operation, -1)]
      && Delete(items, path) == [Entry(key, Schema(schema.(config := Config(Delete(sub, parts)))), operation, -1)]
      && ValuesAt(items, path, leaves) == ValuesAt(sub, parts, leaves)
  {
    var key := Some(IdentifierExpr(Identifier(name, [])));
    var entry := Entry(key, Schema(schema), operation, -1);
    var path := [name] + parts;
    assert path[1..] == parts && path[0] == name && KeySegments(key) == [name] && KeyPath(key) == name;
    assert Receives(entry, path) && Finds([entry], path);
    assert PutEach([entry], path, value) == [PutEntry(entry, path, value)];
    assert PutBelow(entry.value, parts, value) == WithConfig(entry.value, Put(sub, parts, value));
    assert Delete([entry], path) == DeleteEntry(entry, path) + [];
    assert DeleteBelow(entry.value, parts) == WithConfig(entry.value, Delete(sub, parts));
    assert ValuesAt([entry], path, leaves) == EntryValues(entry, path, leaves) + ValuesAt([], path, leaves);
    assert [name] <= path && EntryValues(entry, path, leaves) == ValuesBelow(entry.value, parts, leaves);
    assert ValuesBelow(entry.value, parts, leaves) == ValuesAt(sub, parts, leaves);
  }
}
