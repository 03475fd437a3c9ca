/** Repeating an update, kclvm/query/src/override.rs:332-422: an appended entry has a dotted key, which
    the next run finds because keys are normalised first. */
module OverrideTwice {
  import opened Wrappers
  import opened ConfigAst
  import opened OverrideLaws
  import opened NestAttr
  import opened Override

  /** An update of the path appends nothing, at any depth it reaches. */
  predicate AppendsNothing(items: seq<Entry>, parts: Path)
    decreases |parts|
  {
    && Finds(items, parts)
    && forall i | 0 <= i < |items| && Receives(items[i], parts) && |parts| > 1 ::
         AppendsNothing(ConfigOf(items[i].value).value, parts[1..])
  }

  lemma {:induction false} FindsSome(items: seq<Entry>, parts: Path, i: nat)
    requires i < |items| && Receives(items[i], parts)
    ensures Finds(items, parts)
    decreases i
  {
    if i > 0 { FindsSome(items[1..], parts, i - 1); }
  }

  lemma {:induction false} FoundSome(items: seq<Entry>, parts: Path) returns (i: nat)
    requires Finds(items, parts)
    ensures i < |items| && Receives(items[i], parts)
  {
    if Receives(items[0], parts) {
      i := 0;
    } else {
      var k := FoundSome(items[1..], parts);
      i := k + 1;
    }
  }

  lemma FixKeepsSingleKey(entry: Entry)
    requires |KeySegments(entry.key)| == 1
    ensures FixEntry(entry) == entry.(value := FixExpr(entry.value))
  {
  }

  /** One entry after an update and normalisation. */
  ghost predicate Settled(entry: Entry, parts: Path, value: Expr)
  {
    Receives(entry, parts) ==>
      if |parts| == 1 then entry.value == FixExpr(value)
      else AppendsNothing(ConfigOf(entry.value).value, parts[1..])
           && (FixExpr(value) == value ==> PutBelow(entry.value, parts[1..], value) == entry.value)
  }

  lemma {:induction false} NestedSettled(names: seq<string>, value: Expr, operation: Operation)
    requires names != []
    ensures var items := NestedValue(names, FixExpr(value), operation).items;
      && AppendsNothing(items, names) && (FixExpr(value) == value ==> Put(items, names, value) == items)
    decreases |names|
  {
    var items := NestedValue(names, FixExpr(value), operation).items;
    if |names| > 1 {
      NestedSettled(names[1..], value, operation);
      assert NestedValue(names[1..], FixExpr(value), operation).Config?;
    }
    assert |items| == 1 && Receives(items[0], names);
    assert PutEach(items, names, value) == [PutEntry(items[0], names, value)] + PutEach([], names, value);
  }

  lemma {:induction false} PutSettles(items: seq<Entry>, parts: Path, value: Expr)
    requires Normal(items)
    ensures var after := FixEntries(Put(items, parts, value));
      AppendsNothing(after, parts) && (FixExpr(value) == value ==> Put(after, parts, value) == after)
    decreases |parts|, 1
  {
    var put := Put(items, parts, value);
    var after := FixEntries(put);
    forall i | 0 <= i < |after|
      ensures Settled(after[i], parts, value)
    {
      if i < |items| { EntrySettles(items[i], parts, value); } else { NewEntrySettles(parts, value); }
    }
    if Finds(items, parts) {
      var i := FoundSome(items, parts);
      EntryStillReceives(items[i], parts, value);
      FindsSome(after, parts, i);
    } else {
      NewEntrySettles(parts, value);
      FindsSome(after, parts, |items|);
    }
    if FixExpr(value) == value {
      forall i | 0 <= i < |after| ensures PutEntry(after[i], parts, value) == after[i] {
        assert Settled(after[i], parts, value);
      }
      assert PutEach(after, parts, value) == after;
    }
  }

  lemma EntryStillReceives(entry: Entry, parts: Path, value: Expr)
    requires NormalEntry(entry) && Receives(entry, parts)
    ensures Receives(FixEntry(PutEntry(entry, parts, value)), parts)
  {
    FixKeepsSingleKey(PutEntry(entry, parts, value));
    if |parts| > 1 { FixedConfigOf(PutBelow(entry.value, parts[1..], value)); }
  }

  lemma {:induction false} EntrySettles(entry: Entry, parts: Path, value: Expr)
    requires NormalEntry(entry)
    ensures Settled(FixEntry(PutEntry(entry, parts, value)), parts, value)
    decreases |parts|, 0
  {
    var put := PutEntry(entry, parts, value);
    FixKeepsSingleKey(put);
    FixedConfigOf(put.value);
    if Receives(entry, parts) && |parts| > 1 {
      var sub := ConfigOf(entry.value).value;
      PutSettles(sub, parts[1..], value);
      assert PutBelow(entry.value, parts[1..], value) == WithConfig(entry.value, Put(sub, parts[1..], value));
      assert ConfigOf(FixEntry(put).value) == Some(FixEntries(Put(sub, parts[1..], value)));
    }
  }

  lemma NewEntrySettles(parts: Path, value: Expr)
    ensures var entry := FixEntry(NewEntry(parts, value));
      Receives(entry, parts) && Settled(entry, parts, value)
  {
    if |parts| > 1 { NestedSettled(parts[1..], value, Operation.Override); }
  }

  /** A second update of a targeted statement appends no entry: it finds the field that the first one left, at
      every depth. When the new value is itself normal, the second update changes nothing more. */
  lemma UpdateAgain(spec: Spec, s: Stmt)
    requires spec.Usable() && spec.HasField() && spec.action.CreateOrUpdate?
    requires Targeted(spec, s) && DeclaredConfig(s).Some?
    ensures var once := FixStmt(OverriddenStmt(spec, FixStmt(s)));
      && DeclaredConfig(once).Some? && AppendsNothing(DeclaredConfig(once).value, spec.Field())
      && (FixExpr(spec.value.value) == spec.value.value ==> OverriddenStmt(spec, once) == once)
  {
    TargetedConfig(spec, s);
    var items, field, value := FixEntries(DeclaredConfig(s).value), spec.Field(), spec.value.value;
    FixedIsNormal(DeclaredConfig(s).value);
    PutSettles(items, field, value);
    var first := OverriddenStmt(spec, FixStmt(s));
    FixKeepsTargets(spec, s);
    FixKeepsTargets(spec, first);
    assert DeclaredConfig(first) == Some(Put(items, field, value));
    match first {
      case Unification(_, schema) => FixedConfigOf(Schema(schema));
      case Assign(_, v) => FixedConfigOf(v);
    }
  }
}
