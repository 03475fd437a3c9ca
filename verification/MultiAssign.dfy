/** Splitting assignments with several targets, kclvm/sema/src/pre_process/multi_assign.rs:18-96, which
    runs before an override so that `a = b = S {}` does not change for both names. The assignments to
    insert are kept in a hash map; `order` is the order in which it happens to be traversed. */
module MultiAssign {
  import opened ConfigAst

  predicate Multi(s: Stmt) { s.Assign? && |s.targets| > 1 }

  /** What is left of a statement in its place. */
  function First(s: Stmt): Stmt
  {
    if Multi(s) then Assign([s.targets[0]], s.value) else s
  }

  /** The assignments to the other targets. */
  function Others(s: Stmt): (r: seq<Stmt>)
    ensures |r| > 0 <==> Multi(s)
  {
    if Multi(s) then seq(|s.targets| - 1, i requires 0 <= i < |s.targets| - 1 => Assign([s.targets[i + 1]], s.value))
    else []
  }

  function Firsts(body: seq<Stmt>): (r: seq<Stmt>)
    ensures |r| == |body|
  {
    seq(|body|, i requires 0 <= i < |body| => First(body[i]))
  }

  /** Every statement followed by the assignments to its other targets. */
  function SplitInPlace(body: seq<Stmt>): seq<Stmt>
  {
    if body == [] then []
    else
      var n := |body| - 1;
      SplitInPlace(body[..n]) + [First(body[n])] + Others(body[n])
  }

  /** The map is traversed once over all assignments with several targets. */
  ghost predicate Traversal(body: seq<Stmt>, order: seq<nat>)
  {
    && (forall k | 0 <= k < |order| :: order[k] < |body| && Multi(body[order[k]]))
    && (forall j, k | 0 <= j < k < |order| :: order[j] != order[k])
    && (forall i: nat | i < |body| && Multi(body[i]) :: i in order)
  }

  predicate Ascending(order: seq<nat>)
  {
    forall j, k | 0 <= j < k < |order| :: order[j] < order[k]
  }

  /** The body after the insertions of a traversal: each list goes behind its statement's index moved by
      the number of statements inserted before, wherever those went. */
  function Inserted(body: seq<Stmt>, order: seq<nat>): (r: seq<Stmt>)
    requires forall k | 0 <= k < |order| :: order[k] < |body|
    ensures |r| >= |body|
    decreases |order|
  {
    if order == [] then Firsts(body)
    else
      var n := order[|order| - 1];
      var r := Inserted(body, order[..|order| - 1]);
      var p := n + (|r| - |body|) + 1;
      r[..p] + Others(body[n]) + r[p..]
  }

  /** A traversal of the map; nothing more is known about its order. */
  method TraverseMapping(body: seq<Stmt>) returns (order: seq<nat>)
    ensures Traversal(body, order)
  {
    order := [];
    for i := 0 to |body|
      invariant forall k | 0 <= k < |order| :: order[k] < i && Multi(body[order[k]])
      invariant forall j, k | 0 <= j < k < |order| :: order[j] != order[k]
      invariant forall n: nat | n < i && Multi(body[n]) :: n in order
    {
      if Multi(body[i]) { order := order + [i]; }
    }
  }

  /** `transform_multi_assign`. */
  method TransformMultiAssign(body: seq<Stmt>, order: seq<nat>) returns (body': seq<Stmt>)
    requires Traversal(body, order)
    ensures body' == Inserted(body, order)
  {
    hide First, Others;
    var mapping;
    body', mapping := WalkModule(body);
    var insertCount := 0;
    for k := 0 to |order|
      invariant body' == Inserted(body, order[..k]) && insertCount == |body'| - |body|
    {
      var insertIndex := order[k] + insertCount;
      body' := InsertAll(body', insertIndex + 1, mapping[order[k]]);
      insertCount := insertCount + |mapping[order[k]]|;
      assert order[..k + 1][..k] == order[..k];
    }
    assert order[..|order|] == order;
  }

  /** The walk that truncates the assignments and collects those to insert. */
  method WalkModule(body: seq<Stmt>) returns (body': seq<Stmt>, mapping: map<nat, seq<Stmt>>)
    ensures body' == Firsts(body)
    ensures forall i: nat | i < |body| && Multi(body[i]) :: i in mapping && mapping[i] == Others(body[i])
  {
    mapping := map[];
    body' := body;
    for index := 0 to |body|
      invariant |body'| == |body|
      invariant forall i | 0 <= i < |body| :: body'[i] == if i < index then First(body[i]) else body[i]
      invariant forall i: nat | i < index && Multi(body[i]) :: i in mapping && mapping[i] == Others(body[i])
    {
      if Multi(body[index]) {
        mapping := mapping[index := Others(body[index])];
        body' := body'[index := First(body[index])];
      }
    }
  }

  method InsertAll(body: seq<Stmt>, p: nat, list: seq<Stmt>) returns (body': seq<Stmt>)
    requires p <= |body|
    ensures body' == body[..p] + list + body[p..]
  {
    body' := body;
    for offset := 0 to |list|
      invariant body' == body[..p] + list[..offset] + body[p..]
    {
      body' := body'[..p + offset] + [list[offset]] + body'[p + offset..];
      assert list[..offset + 1] == list[..offset] + [list[offset]];
    }
    assert list[..|list|] == list;
  }

  // ----- the order of the statements -----

  lemma SplitStep(body: seq<Stmt>, n: nat)
    requires n < |body|
    ensures SplitInPlace(body[..n + 1]) == SplitInPlace(body[..n]) + [First(body[n])] + Others(body[n])
  {
    var front := body[..n + 1];
    assert front != [] && |front| - 1 == n && front[..n] == body[..n] && front[n] == body[n];
  }

  lemma InsertedStep(body: seq<Stmt>, order: seq<nat>)
    requires order != [] && forall k | 0 <= k < |order| :: order[k] < |body|
    ensures var n := order[|order| - 1];
      var r := Inserted(body, order[..|order| - 1]);
      var p := n + (|r| - |body|) + 1;
      p <= |r| && Inserted(body, order) == r[..p] + Others(body[n]) + r[p..]
  {
  }

  lemma {:induction false} SplitAt(body: seq<Stmt>, n: nat)
    requires n <= |body|
    ensures SplitInPlace(body[..n]) <= SplitInPlace(body)
    decreases |body| - n
  {
    hide SplitInPlace;
    if n == |body| {
      assert body[..n] == body;
    } else {
      SplitStep(body, n);
      SplitAt(body, n + 1);
    }
  }

  /** Statements with one target stay as they are. */
  lemma {:induction false} SplitSingles(body: seq<Stmt>, n: nat)
    requires n <= |body| && forall i | n <= i < |body| :: !Multi(body[i])
    ensures SplitInPlace(body) == SplitInPlace(body[..n]) + body[n..]
    decreases |body| - n
  {
    hide SplitInPlace;
    if n == |body| {
      assert body[..n] == body;
    } else {
      SplitStep(body, n);
      SplitSingles(body, n + 1);
      assert First(body[n]) == body[n] && Others(body[n]) == [];
      assert body[n..] == [body[n]] + body[n + 1..];
    }
  }

  lemma OneMore(body: seq<Stmt>, n: nat)
    requires n < |body| && Multi(body[n]) && forall i | n < i < |body| :: !Multi(body[i])
    ensures SplitInPlace(body) == SplitInPlace(body[..n]) + [First(body[n])] + Others(body[n]) + body[n + 1..]
    ensures SplitInPlace(body[n := First(body[n])]) == SplitInPlace(body[..n]) + [First(body[n])] + body[n + 1..]
  {
    hide SplitInPlace;
    var body' := body[n := First(body[n])];
    SplitSingles(body, n + 1);
    SplitSingles(body', n + 1);
    SplitStep(body, n);
    SplitStep(body', n);
    assert body'[..n] == body[..n] && body'[n + 1..] == body[n + 1..];
    assert First(body'[n]) == First(body[n]) && Others(body'[n]) == [];
  }

  /** Without the last insertion, the traversal is one of the body whose statement is already split. */
  lemma {:induction false} SameInsertions(body: seq<Stmt>, order: seq<nat>, n: nat)
    requires n < |body| && n !in order && forall k | 0 <= k < |order| :: order[k] < |body|
    ensures Inserted(body[n := First(body[n])], order) == Inserted(body, order)
    decreases |order|
  {
    hide Inserted, First, Others;
    var body' := body[n := First(body[n])];
    if order == [] {
      SameFirsts(body, n);
    } else {
      var front, last := order[..|order| - 1], order[|order| - 1];
      assert order == front + [last];
      SameInsertions(body, front, n);
      InsertedStep(body, order);
      InsertedStep(body', order);
      assert body'[last] == body[last];
    }
  }

  lemma SameFirsts(body: seq<Stmt>, n: nat)
    requires n < |body|
    ensures Inserted(body[n := First(body[n])], []) == Inserted(body, [])
  {
    assert Firsts(body[n := First(body[n])]) == Firsts(body);
  }

  lemma ShorterTraversal(body: seq<Stmt>, order: seq<nat>)
    requires Traversal(body, order) && order != []
    ensures var n := order[|order| - 1];
      Traversal(body[n := First(body[n])], order[..|order| - 1]) && n !in order[..|order| - 1]
  {
    var k := |order| - 1;
    var n := order[k];
    var body', front := body[n := First(body[n])], order[..k];
    forall i: nat | i < |body'| && Multi(body'[i]) ensures i in front {
      assert i != n && Multi(body[i]) && i in order;
      var j :| 0 <= j < |order| && order[j] == i;
      assert front[j] == i;
    }
    forall j | 0 <= j < k ensures front[j] < |body'| && Multi(body'[front[j]]) { assert order[j] != n; }
  }

  /** In source order the statements come out split in place. */
  lemma {:induction false} AscendingSplits(body: seq<Stmt>, order: seq<nat>)
    requires Traversal(body, order) && Ascending(order)
    ensures Inserted(body, order) == SplitInPlace(body)
    decreases |order|
  {
    if order == [] {
      NothingToSplit(body);
    } else {
      hide SplitInPlace, Inserted, Others, First;
      var k := |order| - 1;
      var n := order[k];
      ShorterTraversal(body, order);
      NoneBehind(body, order);
      assert Ascending(order[..k]) && n < |body| && Multi(body[n]);
      hide Traversal, Ascending;
      AscendingSplits(body[n := First(body[n])], order[..k]);
      SameInsertions(body, order[..k], n);
      OneMore(body, n);
      InsertedStep(body, order);
      SplitSize(body, order[..k], n);
    }
  }

  lemma NothingToSplit(body: seq<Stmt>)
    requires Traversal(body, [])
    ensures Inserted(body, []) == SplitInPlace(body)
  {
    assert forall i | 0 <= i < |body| :: !Multi(body[i]);
    SplitSingles(body, 0);
    assert body[..0] == [] && body[0..] == body && Firsts(body) == body;
  }

  lemma NoneBehind(body: seq<Stmt>, order: seq<nat>)
    requires Traversal(body, order) && Ascending(order) && order != []
    ensures forall i | order[|order| - 1] < i < |body| :: !Multi(body[i])
  {
    var k := |order| - 1;
    assert forall j | 0 <= j < |order| :: order[j] <= order[k];
    assert forall i | order[k] < i < |body| && Multi(body[i]) :: i in order;
  }

  /** The list of the last statement goes behind that statement. */
  lemma SplitSize(body: seq<Stmt>, front: seq<nat>, n: nat)
    requires n < |body| && forall k | 0 <= k < |front| :: front[k] < |body|
    requires Inserted(body, front) == SplitInPlace(body[..n]) + [First(body[n])] + body[n + 1..]
    ensures var r := Inserted(body, front);
      var p := n + (|r| - |body|) + 1;
      p <= |r| && r[..p] == SplitInPlace(body[..n]) + [First(body[n])] && r[p..] == body[n + 1..]
  {
    hide SplitInPlace, Inserted, First;
  }

  ghost predicate Distinct(stmts: seq<Stmt>)
  {
    forall i, j | 0 <= i < j < |stmts| :: stmts[i] != stmts[j]
  }

  /** Where the other targets of a statement go when it is split in place. */
  lemma PlaceOfOthers(body: seq<Stmt>, n: nat)
    requires n < |body| && Multi(body[n])
    ensures var p := |SplitInPlace(body[..n])| + 1;
      p < |SplitInPlace(body)| && SplitInPlace(body)[p] == Others(body[n])[0]
  {
    hide SplitInPlace;
    SplitAt(body, n + 1);
    SplitStep(body, n);
    assert SplitInPlace(body[..n + 1])[|SplitInPlace(body[..n])| + 1] == Others(body[n])[0];
  }

  /** When splitting adds nothing behind `n`, the statements there have one target. */
  lemma {:induction false} SplitGrows(body: seq<Stmt>, n: nat)
    requires n <= |body|
    ensures |SplitInPlace(body)| >= |SplitInPlace(body[..n])| + |body| - n
    ensures |SplitInPlace(body)| == |SplitInPlace(body[..n])| + |body| - n ==>
      forall i | n <= i < |body| :: !Multi(body[i])
    decreases |body| - n
  {
    hide SplitInPlace;
    if n == |body| {
      assert body[..n] == body;
    } else {
      SplitStep(body, n);
      SplitGrows(body, n + 1);
    }
  }

  /** With distinct statements, the result is split in place if and only if the map happens to be traversed in
      source order. */
  lemma {:induction false} InOrderOnlyIfAscending(body: seq<Stmt>, order: seq<nat>)
    requires Traversal(body, order) && Distinct(SplitInPlace(body))
    ensures Inserted(body, order) == SplitInPlace(body) <==> Ascending(order)
    decreases |order|
  {
    hide SplitInPlace, Inserted, First, Distinct;
    if Ascending(order) {
      AscendingSplits(body, order);
    } else if Inserted(body, order) == SplitInPlace(body) {
      var k := |order| - 1;
      var n := order[k];
      LastInOrder(body, order);
      ShorterTraversal(body, order);
      SameInsertions(body, order[..k], n);
      StillDistinct(body, n);
      InOrderOnlyIfAscending(body[n := First(body[n])], order[..k]);
      AscendingWithLast(body, order);
    }
  }

  /** When the result is in order, the last statement of the traversal is the last one to split, and the
      result before it was in order too. */
  lemma LastInOrder(body: seq<Stmt>, order: seq<nat>)
    requires Traversal(body, order) && order != []
    requires Distinct(SplitInPlace(body)) && Inserted(body, order) == SplitInPlace(body)
    ensures var n := order[|order| - 1];
      && (forall i | n < i < |body| :: !Multi(body[i]))
      && Inserted(body, order[..|order| - 1]) == SplitInPlace(body[n := First(body[n])])
  {
    hide SplitInPlace, Inserted, First, Others, Distinct;
    var n := order[|order| - 1];
    var r, b := Inserted(body, order[..|order| - 1]), Others(body[n]);
    var p := InsertionPoint(body, order);
    SplitStep(body, n);
    SplitGrows(body, n + 1);
    OneMore(body, n);
    CutOut(r, p, SplitInPlace(body[..n]) + [First(body[n])], b, body[n + 1..]);
  }

  /** In a result that is in order the last list stands right behind its statement. */
  lemma InsertionPoint(body: seq<Stmt>, order: seq<nat>) returns (p: nat)
    requires Traversal(body, order) && order != []
    requires Distinct(SplitInPlace(body)) && Inserted(body, order) == SplitInPlace(body)
    ensures var n := order[|order| - 1];
      var r := Inserted(body, order[..|order| - 1]);
      && p == |SplitInPlace(body[..n])| + 1 && p == n + (|r| - |body|) + 1 && p <= |r|
      && SplitInPlace(body) == r[..p] + Others(body[n]) + r[p..]
  {
    hide SplitInPlace, Inserted, First, Others, Distinct;
    assert |Others(body[order[|order| - 1]])| > 0;
    var n := order[|order| - 1];
    var r := Inserted(body, order[..|order| - 1]);
    p := n + (|r| - |body|) + 1;
    InsertedStep(body, order);
    assert SplitInPlace(body)[p] == Others(body[n])[0];
    PlaceOfOthers(body, n);
    SamePlace(SplitInPlace(body), p, |SplitInPlace(body[..n])| + 1);
  }

  lemma SamePlace(s: seq<Stmt>, i: nat, j: nat)
    requires Distinct(s) && i < |s| && j < |s| && s[i] == s[j]
    ensures i == j
  {
  }

  lemma CutOut(r: seq<Stmt>, p: nat, a: seq<Stmt>, b: seq<Stmt>, c: seq<Stmt>)
    requires p <= |r| && p == |a| && r[..p] + b + r[p..] == a + b + c
    ensures r == a + c
  {
    var s := a + b + c;
    assert s[..p] == r[..p] && s[..p] == a;
    assert s[p + |b|..] == r[p..] && s[p + |b|..] == c;
  }

  lemma AscendingWithLast(body: seq<Stmt>, order: seq<nat>)
    requires Traversal(body, order) && order != [] && Ascending(order[..|order| - 1])
    requires forall i | order[|order| - 1] < i < |body| :: !Multi(body[i])
    ensures Ascending(order)
  {
    var k := |order| - 1;
    forall j | 0 <= j < k ensures order[j] < order[k] { assert order[j] != order[k] && Multi(body[order[j]]); }
    assert forall j | 0 <= j < k :: order[..k][j] == order[j];
  }

  lemma StillDistinct(body: seq<Stmt>, n: nat)
    requires n < |body| && Multi(body[n]) && forall i | n < i < |body| :: !Multi(body[i])
    requires Distinct(SplitInPlace(body))
    ensures Distinct(SplitInPlace(body[n := First(body[n])]))
  {
    hide SplitInPlace, First, Others, Distinct;
    OneMore(body, n);
    DistinctWithout(SplitInPlace(body[..n]) + [First(body[n])], Others(body[n]), body[n + 1..]);
  }

  lemma DistinctWithout(a: seq<Stmt>, b: seq<Stmt>, c: seq<Stmt>)
    requires Distinct(a + b + c)
    ensures Distinct(a + c)
  {
    var s, s' := a + b + c, a + c;
    forall i, j | 0 <= i < j < |s'| ensures s'[i] != s'[j] {
      var i', j' := if i < |a| then i else i + |b|, if j < |a| then j else j + |b|;
      assert s'[i] == s[i'] && s'[j] == s[j'];
    }
  }

  /** No two statements assign to several targets. */
  predicate OneMulti(body: seq<Stmt>)
  {
    forall i, j | 0 <= i < j < |body| :: !(Multi(body[i]) && Multi(body[j]))
  }

  /** The assignments with several targets among the first `n` statements, last one first. */
  function Backwards(body: seq<Stmt>, n: nat): (order: seq<nat>)
    requires n <= |body|
    ensures forall k | 0 <= k < |order| :: order[k] < n && Multi(body[order[k]])
    ensures forall j, k | 0 <= j < k < |order| :: order[j] > order[k]
    ensures forall i: nat | i < n && Multi(body[i]) :: i in order
  {
    if n == 0 then [] else (if Multi(body[n - 1]) then [n - 1] else []) + Backwards(body, n - 1)
  }

  lemma BackwardsIsNotAscending(body: seq<Stmt>, i: nat, j: nat)
    requires i < j < |body| && Multi(body[i]) && Multi(body[j])
    ensures Traversal(body, Backwards(body, |body|)) && !Ascending(Backwards(body, |body|))
  {
    var order := Backwards(body, |body|);
    assert i in order && j in order;
    var k :| 0 <= k < |order| && order[k] == i;
    var l :| 0 <= l < |order| && order[l] == j;
    assert order[0] > order[1];
  }

  lemma OnlyAscending(body: seq<Stmt>, order: seq<nat>)
    requires Traversal(body, order) && OneMulti(body)
    ensures Ascending(order)
  {
  }

  /** Whatever the order of the map, the statements come out split in place: this is so exactly for a body
      with at most one assignment to several targets (when the statements that come out are distinct). */
  lemma AlwaysInPlace(body: seq<Stmt>)
    requires Distinct(SplitInPlace(body))
    ensures (forall order | Traversal(body, order) :: Inserted(body, order) == SplitInPlace(body)) <==> OneMulti(body)
  {
    hide Distinct, SplitInPlace, Inserted;
    if OneMulti(body) {
      forall order | Traversal(body, order) ensures Inserted(body, order) == SplitInPlace(body) {
        OnlyAscending(body, order);
        AscendingSplits(body, order);
      }
    } else {
      var i, j :| 0 <= i < j < |body| && Multi(body[i]) && Multi(body[j]);
      BackwardsIsNotAscending(body, i, j);
      InOrderOnlyIfAscending(body, Backwards(body, |body|));
    }
  }

  /** Two assignments traversed backwards: the second name of the first one is assigned after the other
      assignment. */
  lemma BackwardsTraversalReorders(a: Identifier, b: Identifier, c: Identifier, d: Identifier, x: Expr, y: Expr)
    ensures var body := [Assign([a, b], x), Assign([c, d], y)];
      && Traversal(body, [1, 0])
      && Inserted(body, [1, 0]) == [Assign([a], x), Assign([c], y), Assign([b], x), Assign([d], y)]
  {
    var body := [Assign([a, b], x), Assign([c, d], y)];
    assert 0 in [1, 0] && 1 in [1, 0];
    TwoInsertions(body, Assign([b], x), Assign([d], y));
  }

  lemma TwoInsertions(body: seq<Stmt>, s: Stmt, t: Stmt)
    requires |body| == 2 && Others(body[0]) == [s] && Others(body[1]) == [t]
    ensures Inserted(body, [1, 0]) == [First(body[0]), First(body[1]), s, t]
  {
    hide First, Others, Inserted;
    assert [1, 0][..1] == [1] && [1][..0] == [];
    NothingInserted(body);
    InsertedStep(body, [1]);
    InsertedStep(body, [1, 0]);
  }

  lemma NothingInserted(body: seq<Stmt>)
    ensures Inserted(body, []) == Firsts(body)
  {
  }
  // ----- what is assigned -----

  /** Which target gets which value, in the order of the statements and of their targets. */
  function Assignments(body: seq<Stmt>): seq<(Identifier, Expr)>
  {
    if body == [] then []
    else Assignments(body[..|body| - 1]) + AssignmentsOf(body[|body| - 1])
  }

  function AssignmentsOf(s: Stmt): seq<(Identifier, Expr)>
  {
    if s.Assign? then seq(|s.targets|, i requires 0 <= i < |s.targets| => (s.targets[i], s.value)) else []
  }

  lemma {:induction false} AssignmentsAppend(a: seq<Stmt>, b: seq<Stmt>)
    ensures Assignments(a + b) == Assignments(a) + Assignments(b)
    decreases |b|
  {
    hide AssignmentsOf;
    if b == [] {
      assert a + b == a;
    } else {
      var n := |b| - 1;
      AssignmentsAppend(a, b[..n]);
      assert (a + b)[..|a| + n] == a + b[..n] && (a + b)[|a| + n] == b[n];
    }
  }

  lemma {:induction false} SingleAssignments(ids: seq<Identifier>, value: Expr, stmts: seq<Stmt>)
    requires |stmts| == |ids| && forall i | 0 <= i < |ids| :: stmts[i] == Assign([ids[i]], value)
    ensures Assignments(stmts) == seq(|ids|, i requires 0 <= i < |ids| => (ids[i], value))
    decreases |ids|
  {
    if ids != [] {
      var n := |ids| - 1;
      SingleAssignments(ids[..n], value, stmts[..n]);
      assert AssignmentsOf(stmts[n]) == [(ids[n], value)];
    }
  }

  lemma SplitKeepsOne(s: Stmt)
    ensures Assignments([First(s)] + Others(s)) == AssignmentsOf(s)
  {
    var parts := [First(s)] + Others(s);
    if Multi(s) {
      assert forall i | 0 <= i < |s.targets| :: parts[i] == Assign([s.targets[i]], s.value);
      SingleAssignments(s.targets, s.value, parts);
    } else {
      assert parts == [s] && Assignments([s]) == Assignments([]) + AssignmentsOf(s);
    }
  }

  /** In place, the split statements assign the same values to the same targets in the same order; each assigns to
      at most one target, and every other statement stays as it is. */
  lemma {:induction false} SplitKeepsAssignments(body: seq<Stmt>)
    ensures Assignments(SplitInPlace(body)) == Assignments(body)
    ensures forall s | s in SplitInPlace(body) :: !Multi(s) && (s.Assign? || s in body)
    ensures forall s | s in body && !Multi(s) :: s in SplitInPlace(body)
    decreases |body|
  {
    hide Assignments, AssignmentsOf;
    if body == [] {
    } else {
      var n := |body| - 1;
      var front := SplitInPlace(body[..n]);
      SplitKeepsAssignments(body[..n]);
      SplitKeepsOne(body[n]);
      AssignmentsAppend(front, [First(body[n])] + Others(body[n]));
      assert front + ([First(body[n])] + Others(body[n])) == SplitInPlace(body);
      assert body == body[..n] + [body[n]];
      AssignmentsStep(body);
    }
  }

  lemma AssignmentsStep(body: seq<Stmt>)
    requires body != []
    ensures Assignments(body) == Assignments(body[..|body| - 1]) + AssignmentsOf(body[|body| - 1])
  {
  }
}
