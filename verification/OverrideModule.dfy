/** What an override makes of a whole module: of every statement, and of every target of an assignment,
    on its own. kclvm/query/src/override.rs:100-144, kclvm/sema/src/pre_process/multi_assign.rs:18-96. */
module OverrideModule {
  import opened Wrappers
  import opened ConfigAst
  import opened OverrideLaws
  import opened NestAttr
  import opened MultiAssign
  import opened Override

  // ----- the splitting keeps all statements -----

  lemma InsertedStatements(r: seq<Stmt>, p: nat, list: seq<Stmt>)
    requires p <= |r|
    ensures multiset(r[..p] + list + r[p..]) == multiset(r) + multiset(list)
  {
    assert r == r[..p] + r[p..];
  }

  lemma OneTakenOut(b: seq<Stmt>, i: nat)
    requires i < |b|
    ensures multiset(b) == multiset(b[..i] + b[i + 1..]) + multiset{b[i]}
    ensures multiset(b[..i] + b[i + 1..]) == multiset(b) - multiset{b[i]}
  {
    assert b == b[..i] + [b[i]] + b[i + 1..];
  }

  /** Splitting one statement in advance leaves out its further targets. */
  lemma {:induction false} SplitWithout(body: seq<Stmt>, n: nat, m: nat)
    requires n < m <= |body|
    ensures var body' := body[n := First(body[n])];
      multiset(SplitInPlace(body[..m])) == multiset(SplitInPlace(body'[..m])) + multiset(Others(body[n]))
    decreases m
  {
    hide SplitInPlace, First, Others;
    var body' := body[n := First(body[n])];
    SplitStep(body, m - 1);
    SplitStep(body', m - 1);
    if n == m - 1 {
      assert body[..n] == body'[..n];
      FirstOfFirst(body[n]);
    } else {
      SplitWithout(body, n, m - 1);
    }
  }

  lemma FirstOfFirst(s: Stmt)
    ensures First(First(s)) == First(s) && Others(First(s)) == []
  {
  }

  /** Whatever the order of the insertions, the statements are those of the body split in place. */
  lemma {:induction false} SameStatements(body: seq<Stmt>, order: seq<nat>)
    requires Traversal(body, order)
    ensures multiset(Inserted(body, order)) == multiset(SplitInPlace(body))
    decreases |order|
  {
    hide SplitInPlace, Inserted, First, Others;
    if order == [] {
      NothingToSplit(body);
    } else {
      var n, front := order[|order| - 1], order[..|order| - 1];
      assert n < |body| by { TraversalInRange(body, order); }
      ShorterTraversal(body, order);
      SameStatements(body[n := First(body[n])], front);
      OneStatementMore(body, order);
    }
  }

  lemma TraversalInRange(body: seq<Stmt>, order: seq<nat>)
    requires Traversal(body, order)
    ensures forall k | 0 <= k < |order| :: order[k] < |body|
  {
  }

  lemma OneStatementMore(body: seq<Stmt>, order: seq<nat>)
    requires order != [] && (forall k | 0 <= k < |order| :: order[k] < |body|)
    requires order[|order| - 1] !in order[..|order| - 1]
    requires var n, front := order[|order| - 1], order[..|order| - 1];
      var body' := body[n := First(body[n])];
      multiset(Inserted(body', front)) == multiset(SplitInPlace(body'))
    ensures multiset(Inserted(body, order)) == multiset(SplitInPlace(body))
  {
    hide SplitInPlace, Inserted, First, Others;
    var n, front := order[|order| - 1], order[..|order| - 1];
    SameInsertions(body, front, n);
    InsertedStep(body, order);
    SplitWithout(body, n, |body|);
    assert body[..|body|] == body;
    assert body[n := First(body[n])][..|body|] == body[n := First(body[n])];
    var r := Inserted(body, front);
    InsertedStatements(r, n + (|r| - |body|) + 1, Others(body[n]));
  }

  lemma FixOfPieces(s: Stmt)
    ensures First(FixStmt(s)) == FixStmt(First(s)) && Others(FixStmt(s)) == FixStmts(Others(s))
  {
  }

  lemma FixAppends(a: seq<Stmt>, b: seq<Stmt>)
    ensures FixStmts(a + b) == FixStmts(a) + FixStmts(b)
  {
  }

  lemma FixedOne(s: Stmt)
    ensures FixStmts([s]) == [FixStmt(s)]
  {
  }

  lemma FixedLength(a: seq<Stmt>)
    ensures |FixStmts(a)| == |a|
  {
  }

  lemma NothingToFix()
    ensures FixStmts([]) == [] && SplitInPlace([]) == []
  {
  }

  /** Keys can be split before or after the targets. */
  lemma {:induction false} FixThenSplit(body: seq<Stmt>)
    ensures SplitInPlace(FixStmts(body)) == FixStmts(SplitInPlace(body))
    decreases |body|
  {
    hide SplitInPlace, First, Others, FixStmts, FixStmt;
    if body == [] {
      NothingToFix();
    } else {
      var n := |body| - 1;
      assert body == body[..n] + [body[n]] && body[..n + 1] == body;
      FixAppends(body[..n], [body[n]]);
      FixedOne(body[n]);
      assert FixStmts(body) == FixStmts(body[..n]) + [FixStmt(body[n])];
      FixedLength(body[..n]);
      SplitStep(body, n);
      SplitStep(FixStmts(body), n);
      assert FixStmts(body)[..n] == FixStmts(body[..n]) && FixStmts(body)[..n + 1] == FixStmts(body);
      FixThenSplit(body[..n]);
      FixOfPieces(body[n]);
      FixAppends(SplitInPlace(body[..n]) + [First(body[n])], Others(body[n]));
      FixAppends(SplitInPlace(body[..n]), [First(body[n])]);
      FixedOne(First(body[n]));
    }
  }

  // ----- the module that comes out -----

  /** The body after an override, as `ApplyOverrideOnModule` returns it. */
  function Result(spec: Spec, body: seq<Stmt>, order: seq<nat>): seq<Stmt>
    requires spec.Usable() && spec.HasField() && forall k | 0 <= k < |order| :: order[k] < |body|
  {
    OverriddenBody(spec, Inserted(FixStmts(body), order))
  }

  lemma OverriddenTakenOut(spec: Spec, b: seq<Stmt>, i: nat)
    requires spec.Usable() && spec.HasField() && i < |b|
    ensures multiset(OverriddenBody(spec, b))
      == multiset(OverriddenBody(spec, b[..i] + b[i + 1..])) + multiset{OverriddenStmt(spec, b[i])}
  {
    hide OverriddenStmt;
    var r := OverriddenBody(spec, b);
    OneTakenOut(r, i);
    assert OverriddenBody(spec, b[..i] + b[i + 1..]) == r[..i] + r[i + 1..];
  }

  lemma TakeOut(spec: Spec, b: seq<Stmt>, x: Stmt) returns (b': seq<Stmt>)
    requires spec.Usable() && spec.HasField() && x in b
    ensures |b'| == |b| - 1 && multiset(b') == multiset(b) - multiset{x}
    ensures multiset(OverriddenBody(spec, b)) == multiset(OverriddenBody(spec, b')) + multiset{OverriddenStmt(spec, x)}
  {
    hide OverriddenBody, OverriddenStmt;
    var i :| 0 <= i < |b| && b[i] == x;
    b' := b[..i] + b[i + 1..];
    OneTakenOut(b, i);
    OverriddenTakenOut(spec, b, i);
  }

  /** Overriding goes statement by statement, so the order does not matter. */
  lemma {:induction false} OverriddenStatements(spec: Spec, a: seq<Stmt>, b: seq<Stmt>)
    requires spec.Usable() && spec.HasField() && multiset(a) == multiset(b)
    ensures multiset(OverriddenBody(spec, a)) == multiset(OverriddenBody(spec, b))
    decreases |a|
  {
    hide OverriddenBody, OverriddenStmt;
    if a == [] {
      assert |multiset(b)| == 0 && b == [];
    } else {
      var x := a[0];
      assert x in multiset(a) && x in multiset(b);
      var a' := TakeOut(spec, a, x);
      var b' := TakeOut(spec, b, x);
      OverriddenStatements(spec, a', b');
    }
  }

  /** The statements that come out are, up to order, those of the body with its targets split, each with
      its keys split and overridden on its own. */
  lemma StatementsOverridden(spec: Spec, body: seq<Stmt>, order: seq<nat>)
    requires spec.Usable() && spec.HasField() && Traversal(FixStmts(body), order)
    ensures multiset(Result(spec, body, order)) == multiset(OverriddenBody(spec, FixStmts(SplitInPlace(body))))
  {
    hide OverriddenBody, FixStmts, SplitInPlace, Inserted;
    SameStatements(FixStmts(body), order);
    FixThenSplit(body);
    OverriddenStatements(spec, Inserted(FixStmts(body), order), FixStmts(SplitInPlace(body)));
  }

  /** What the override of a module makes of one of its statements. */
  ghost predicate Lawful(spec: Spec, s: Stmt, s': Stmt, q: Path)
    requires spec.Usable() && spec.HasField()
  {
    if !Targeted(spec, s) then s' == FixStmt(s)
    else DeclaredConfig(s).Some? ==> match spec.action
      case CreateOrUpdate => Updated(spec, s, s', q)
      case DeleteField => Deleted(spec, s, s', q)
  }

  lemma StatementIsLawful(spec: Spec, s: Stmt, q: Path)
    requires spec.Usable() && spec.HasField()
    ensures Lawful(spec, s, OverriddenStmt(spec, FixStmt(s)), q)
  {
    hide Updated, Deleted;
    FixKeepsTargets(spec, s);
    if Targeted(spec, s) && DeclaredConfig(s).Some? {
      if spec.action.CreateOrUpdate? { UpdateIsLawful(spec, s, q); } else { DeletionIsLawful(spec, s, q); }
    }
  }

  /** A statement and what an override makes of it. */
  ghost predicate Becomes(spec: Spec, s: Stmt, s': Stmt)
    requires spec.Usable() && spec.HasField()
  {
    s' == OverriddenStmt(spec, FixStmt(s)) && forall q :: Lawful(spec, s, s', q)
  }

  /** The update or deletion of a whole module, in any order of the splitting: every statement and every
      target of an assignment is there, changed by the law of the override when it is targeted and only
      normalised otherwise, and there is nothing else. */
  lemma ModuleIsLawful(spec: Spec, body: seq<Stmt>, order: seq<nat>)
    requires spec.Usable() && spec.HasField() && Traversal(FixStmts(body), order)
    ensures var split, result := SplitInPlace(body), Result(spec, body, order);
      && |result| == |split|
      && (forall s | s in split :: exists s' :: s' in result && Becomes(spec, s, s'))
      && (forall s' | s' in result :: exists s :: s in split && Becomes(spec, s, s'))
  {
    var split, result := SplitInPlace(body), Result(spec, body, order);
    var plain := OverriddenBody(spec, FixStmts(split));
    StatementsOverridden(spec, body, order);
    assert |result| == |multiset(result)| == |multiset(plain)| == |split|;
    hide SplitInPlace, Inserted, Lawful, OverriddenStmt, FixStmt, Result;
    forall i | 0 <= i < |split| ensures Becomes(spec, split[i], plain[i]) {
      forall q { StatementIsLawful(spec, split[i], q); }
    }
    forall s | s in split ensures exists s' :: s' in result && Becomes(spec, s, s') {
      var i :| 0 <= i < |split| && split[i] == s;
      assert plain[i] in multiset(plain);
      assert plain[i] in result && Becomes(spec, s, plain[i]);
    }
    forall s' | s' in result ensures exists s :: s in split && Becomes(spec, s, s') {
      assert s' in multiset(plain);
      var i :| 0 <= i < |plain| && plain[i] == s';
      assert split[i] in split && Becomes(spec, split[i], s');
    }
  }

  /** Each target of an assignment is a statement of its own. */
  lemma TargetInSplit(body: seq<Stmt>, k: nat, j: nat)
    requires k < |body| && body[k].Assign? && j < |body[k].targets|
    ensures Assign([body[k].targets[j]], body[k].value) in SplitInPlace(body)
  {
    var t := Assign([body[k].targets[j]], body[k].value);
    SplitAt(body, k + 1);
    SplitStep(body, k);
    var front := SplitInPlace(body[..k]);
    hide SplitInPlace;
    var pieces := [First(body[k])] + Others(body[k]);
    assert pieces[j] == t;
    assert SplitInPlace(body)[|front| + j] == t;
  }

  /** In `a = b = S {}` an override of `b` leaves what `a` declares as it was: every target of an assignment
      that is not the one asked for keeps the value, and the one asked for is overridden. */
  lemma OtherTargetsKept(spec: Spec, body: seq<Stmt>, order: seq<nat>, k: nat, j: nat)
    requires spec.Usable() && spec.HasField() && Traversal(FixStmts(body), order)
    requires k < |body| && body[k].Assign? && j < |body[k].targets|
    ensures var t := Assign([body[k].targets[j]], FixExpr(body[k].value));
      && (!Names(body[k].targets[j], spec.Target()) ==> t in Result(spec, body, order))
      && (Names(body[k].targets[j], spec.Target()) ==> OverriddenStmt(spec, t) in Result(spec, body, order))
  {
    var s := Assign([body[k].targets[j]], body[k].value);
    TargetInSplit(body, k, j);
    ModuleIsLawful(spec, body, order);
    var s' :| s' in Result(spec, body, order) && Becomes(spec, s, s');
    hide SplitInPlace, Inserted, Result, Lawful;
    assert FixStmt(s) == Assign([body[k].targets[j]], FixExpr(body[k].value));
  }
}
