/** Adding import statements to a module, kclvm/query/src/override.rs:185-227. */
module ImportPaths {
  import opened Wrappers
  import opened ConfigAst

  /** How an existing import is named in the list of requested imports. */
  function ImportKey(s: Stmt): Option<string>
  {
    match s
    case Import(path, Some(asname)) => Some(path + " as " + asname)
    case Import(path, None) => Some(path)
    case _ => None
  }

  function ImportKeys(body: seq<Stmt>): (keys: set<string>)
    ensures |keys| <= |body|
    ensures forall i | 0 <= i < |body| && ImportKey(body[i]).Some? :: ImportKey(body[i]).value in keys
  {
    if body == [] then {}
    else
      var keys := ImportKeys(body[1..]);
      assert forall i | 0 < i < |body| :: body[i] == body[1..][i - 1];
      match ImportKey(body[0])
      case Some(key) => keys + {key}
      case None => keys
  }

  predicate Fresh(paths: seq<string>, existing: set<string>, i: nat)
  {
    i < |paths| && paths[i] !in existing
  }

  /** How many of the first `k` requested paths are not imported yet. */
  function FreshBefore(paths: seq<string>, existing: set<string>, k: nat): (n: nat)
    ensures n <= k && n <= |paths|
  {
    if k == 0 then 0 else FreshBefore(paths, existing, k - 1) + if Fresh(paths, existing, k - 1) then 1 else 0
  }

  /** No insertion of the first `n` requests runs past the end of the body: at each fresh path, the
      paths skipped so far are at most as many as the statements of the body. */
  predicate InsertsInRange(body: seq<Stmt>, paths: seq<string>, existing: set<string>, n: nat)
  {
    forall i | 0 <= i < n :: InsertInRange(body, paths, existing, i)
  }

  predicate InsertInRange(body: seq<Stmt>, paths: seq<string>, existing: set<string>, i: nat)
  {
    Fresh(paths, existing, i) ==> i - FreshBefore(paths, existing, i) <= |body|
  }

  lemma {:induction false} SkippedGrows(paths: seq<string>, existing: set<string>, i: nat, j: nat)
    requires i <= j
    ensures FreshBefore(paths, existing, i) <= FreshBefore(paths, existing, j)
    ensures i - FreshBefore(paths, existing, i) <= j - FreshBefore(paths, existing, j)
    decreases j
  {
    if i < j { SkippedGrows(paths, existing, i, j - 1); }
  }

  /** How many statements the first `n` requests put before position `k`. */
  function Shift(paths: seq<string>, existing: set<string>, n: nat, k: nat): nat
  {
    FreshBefore(paths, existing, if k <= n then k else n)
  }

  lemma OriginalInRange(body: seq<Stmt>, paths: seq<string>, existing: set<string>, n: nat, k: nat)
    requires InsertsInRange(body, paths, existing, n)
    requires k < |body| + FreshBefore(paths, existing, n) && !(k < n && Fresh(paths, existing, k))
    ensures k - Shift(paths, existing, n, k) < |body|
  {
    if k < n && FreshBefore(paths, existing, k) < FreshBefore(paths, existing, n) {
      var i := NextFresh(paths, existing, n, k);
      assert InsertInRange(body, paths, existing, i);
      SkippedGrows(paths, existing, k + 1, i);
    }
  }

  lemma {:induction false} NextFresh(paths: seq<string>, existing: set<string>, n: nat, k: nat) returns (i: nat)
    requires k <= n && FreshBefore(paths, existing, k) < FreshBefore(paths, existing, n)
    ensures k <= i < n && Fresh(paths, existing, i)
    decreases n - k
  {
    if Fresh(paths, existing, k) { i := k; } else { i := NextFresh(paths, existing, n, k + 1); }
  }

  /** The body after the first `n` requests, position by position: a fresh path sits at its own
      index in the request, and the original statements fill the other positions in order. */
  function Merged(body: seq<Stmt>, paths: seq<string>, existing: set<string>, n: nat): (r: seq<Stmt>)
    requires InsertsInRange(body, paths, existing, n)
    ensures |r| == |body| + FreshBefore(paths, existing, n)
  {
    seq(|body| + FreshBefore(paths, existing, n),
        k requires 0 <= k < |body| + FreshBefore(paths, existing, n) =>
          if k < n && Fresh(paths, existing, k) then Import(paths[k], None)
          else
            OriginalInRange(body, paths, existing, n, k);
            body[k - Shift(paths, existing, n, k)])
  }

  /** One more request either changes nothing or is one insertion. */
  lemma MergedStep(body: seq<Stmt>, paths: seq<string>, existing: set<string>, n: nat)
    requires n < |paths| && InsertsInRange(body, paths, existing, n)
    requires InsertInRange(body, paths, existing, n)
    ensures InsertsInRange(body, paths, existing, n + 1)
    ensures var r, r' := Merged(body, paths, existing, n), Merged(body, paths, existing, n + 1);
      if Fresh(paths, existing, n) then n <= |r| && r' == r[..n] + [Import(paths[n], None)] + r[n..]
      else r' == r
  {
    var r, r' := Merged(body, paths, existing, n), Merged(body, paths, existing, n + 1);
    forall k | 0 <= k < |r'|
      ensures Fresh(paths, existing, n) ==> r'[k] == (r[..n] + [Import(paths[n], None)] + r[n..])[k]
      ensures !Fresh(paths, existing, n) ==> r'[k] == r[k]
    {
    }
  }

  /** `apply_import_paths_on_module`; None is the panic of `Vec::insert` past the end. */
  method ApplyImportPaths(body: seq<Stmt>, importPaths: seq<string>) returns (r: Option<seq<Stmt>>)
    ensures var existing := ImportKeys(body);
      r == if InsertsInRange(body, importPaths, existing, |importPaths|)
           then Some(Merged(body, importPaths, existing, |importPaths|)) else None
  {
    var existImportSet := {};
    for i := 0 to |body|
      invariant existImportSet + ImportKeys(body[i..]) == ImportKeys(body)
    {
      match ImportKey(body[i]) {
        case Some(key) => existImportSet := existImportSet + {key};
        case None =>
      }
      assert body[i..][1..] == body[i + 1..];
    }
    assert existImportSet == ImportKeys(body);

    var result := body;
    assert Merged(body, importPaths, existImportSet, 0) == body;
    for i := 0 to |importPaths|
      invariant InsertsInRange(body, importPaths, existImportSet, i)
      invariant result == Merged(body, importPaths, existImportSet, i)
    {
      if importPaths[i] !in existImportSet {
        if i > |result| {
          assert !InsertInRange(body, importPaths, existImportSet, i);
          return None;
        }
        result := result[..i] + [Import(importPaths[i], None)] + result[i..];
      }
      MergedStep(body, importPaths, existImportSet, i);
    }
    return Some(result);
  }

  // ----- what the result means -----

  function ToSet(paths: seq<string>): set<string> { set p | p in paths }

  predicate NoDuplicates(paths: seq<string>)
  {
    forall i, j | 0 <= i < j < |paths| :: paths[i] != paths[j]
  }

  function Skipped(paths: seq<string>, existing: set<string>, k: nat): (s: set<string>)
    requires k <= |paths|
    ensures s <= existing && forall x | x in s :: x in paths[..k]
  {
    set i | 0 <= i < k && paths[i] in existing :: paths[i]
  }

  lemma {:induction false} SkippedCount(paths: seq<string>, existing: set<string>, k: nat)
    requires k <= |paths| && NoDuplicates(paths)
    ensures |Skipped(paths, existing, k)| == k - FreshBefore(paths, existing, k)
    decreases k
  {
    if k == 0 {
      assert Skipped(paths, existing, 0) == {};
    } else {
      SkippedCount(paths, existing, k - 1);
      var before := Skipped(paths, existing, k - 1);
      assert paths[k - 1] !in before;
      assert Skipped(paths, existing, k) == if Fresh(paths, existing, k - 1) then before else before + {paths[k - 1]};
    }
  }

  lemma SubsetSize(a: set<string>, b: set<string>)
    requires a <= b
    ensures |a| <= |b|
  {
    assert b == a + (b - a);
  }

  /** Without duplicate requests no insertion is out of range: each skipped path needs an import
      statement of its own in the body. */
  lemma DistinctPathsFit(body: seq<Stmt>, paths: seq<string>)
    requires NoDuplicates(paths)
    ensures InsertsInRange(body, paths, ImportKeys(body), |paths|)
  {
    var existing := ImportKeys(body);
    forall i | 0 <= i < |paths| ensures InsertInRange(body, paths, existing, i)
    {
      SkippedCount(paths, existing, i);
      SubsetSize(Skipped(paths, existing, i), existing);
    }
  }

  /** The statements of `r` that were not inserted, from position `k` on. */
  function Originals(r: seq<Stmt>, paths: seq<string>, existing: set<string>, k: nat): seq<Stmt>
    decreases |r| - k
  {
    if k >= |r| then []
    else (if Fresh(paths, existing, k) then [] else [r[k]]) + Originals(r, paths, existing, k + 1)
  }

  lemma FreshInside(body: seq<Stmt>, paths: seq<string>, existing: set<string>, i: nat)
    requires InsertsInRange(body, paths, existing, |paths|) && Fresh(paths, existing, i)
    ensures i < |body| + FreshBefore(paths, existing, |paths|)
  {
    assert InsertInRange(body, paths, existing, i);
    SkippedGrows(paths, existing, i + 1, |paths|);
  }

  lemma EndReached(body: seq<Stmt>, paths: seq<string>, existing: set<string>)
    requires InsertsInRange(body, paths, existing, |paths|)
    ensures var added := FreshBefore(paths, existing, |paths|);
      Shift(paths, existing, |paths|, |body| + added) == added
  {
    var k := |body| + FreshBefore(paths, existing, |paths|);
    if k < |paths| {
      SkippedGrows(paths, existing, k, |paths|);
      if FreshBefore(paths, existing, k) < FreshBefore(paths, existing, |paths|) {
        var i := NextFresh(paths, existing, |paths|, k);
        FreshInside(body, paths, existing, i);
      }
    }
  }

  lemma ShiftStep(paths: seq<string>, existing: set<string>, k: nat)
    ensures Shift(paths, existing, |paths|, k + 1)
      == Shift(paths, existing, |paths|, k) + if Fresh(paths, existing, k) then 1 else 0
  {
  }

  /** Position `i` holds a fresh path, or the original statement whose turn it is. */
  predicate FilledAt(body: seq<Stmt>, r: seq<Stmt>, paths: seq<string>, existing: set<string>, i: nat)
  {
    var j := i - Shift(paths, existing, |paths|, i);
    i < |r| && !Fresh(paths, existing, i) ==> 0 <= j < |body| && r[i] == body[j]
  }

  lemma {:induction false} OriginalsFrom(body: seq<Stmt>, r: seq<Stmt>, paths: seq<string>, existing: set<string>,
                                         k: nat)
    requires k <= |r| && |r| - Shift(paths, existing, |paths|, |r|) == |body|
    requires forall i | 0 <= i < |r| :: FilledAt(body, r, paths, existing, i)
    ensures k - Shift(paths, existing, |paths|, k) <= |body|
    ensures Originals(r, paths, existing, k) == body[k - Shift(paths, existing, |paths|, k)..]
    decreases |r| - k
  {
    hide Fresh;
    if k < |r| {
      OriginalsFrom(body, r, paths, existing, k + 1);
      ShiftStep(paths, existing, k);
      hide Shift;
      if !Fresh(paths, existing, k) {
        assert FilledAt(body, r, paths, existing, k);
        var j := k - Shift(paths, existing, |paths|, k);
        assert body[j..] == [r[k]] + body[j + 1..];
      }
    }
  }

  lemma {:induction false} OriginalInside(r: seq<Stmt>, paths: seq<string>, existing: set<string>, k: nat, j: nat)
    returns (i: nat)
    requires j < |Originals(r, paths, existing, k)|
    ensures i < |r| && r[i] == Originals(r, paths, existing, k)[j]
    decreases |r| - k
  {
    if Fresh(paths, existing, k) { i := OriginalInside(r, paths, existing, k + 1, j); }
    else if j == 0 { i := k; }
    else { i := OriginalInside(r, paths, existing, k + 1, j - 1); }
  }

  lemma {:induction false} KeyHasStmt(body: seq<Stmt>, key: string) returns (i: nat)
    requires key in ImportKeys(body)
    ensures i < |body| && ImportKey(body[i]) == Some(key)
    decreases |body|
  {
    if ImportKey(body[0]) == Some(key) { i := 0; }
    else {
      i := KeyHasStmt(body[1..], key);
      i := i + 1;
    }
  }

  lemma {:induction false} NothingFresh(paths: seq<string>, existing: set<string>, k: nat)
    requires ToSet(paths) <= existing
    ensures FreshBefore(paths, existing, k) == 0
    decreases k
  {
    if k > 0 {
      NothingFresh(paths, existing, k - 1);
      assert k - 1 < |paths| ==> paths[k - 1] in ToSet(paths);
    }
  }

  lemma OriginalsKept(body: seq<Stmt>, paths: seq<string>, existing: set<string>)
    requires InsertsInRange(body, paths, existing, |paths|)
    ensures Originals(Merged(body, paths, existing, |paths|), paths, existing, 0) == body
  {
    hide Originals;
    var r := Merged(body, paths, existing, |paths|);
    EndReached(body, paths, existing);
    forall i | 0 <= i < |r| ensures FilledAt(body, r, paths, existing, i) {
      if !Fresh(paths, existing, i) { OriginalInRange(body, paths, existing, |paths|, i); }
    }
    OriginalsFrom(body, r, paths, existing, 0);
  }

  /** Once every requested path is imported, asking again changes nothing. */
  lemma NothingToInsert(body: seq<Stmt>, paths: seq<string>)
    requires ToSet(paths) <= ImportKeys(body)
    ensures InsertsInRange(body, paths, ImportKeys(body), |paths|)
    ensures Merged(body, paths, ImportKeys(body), |paths|) == body
  {
    var existing := ImportKeys(body);
    hide ImportKeys;
    forall k: nat ensures FreshBefore(paths, existing, k) == 0 && !Fresh(paths, existing, k) {
      NothingFresh(paths, existing, k + 1);
      NothingFresh(paths, existing, k);
    }
  }

  /** A body within range: the original statements are kept in order, each fresh path stands at its
      own index, every requested path is imported, and asking again changes nothing. */
  lemma ImportsApplied(body: seq<Stmt>, paths: seq<string>)
    requires InsertsInRange(body, paths, ImportKeys(body), |paths|)
    ensures var existing := ImportKeys(body);
      var r := Merged(body, paths, existing, |paths|);
      && Originals(r, paths, existing, 0) == body
      && (forall i: nat | Fresh(paths, existing, i) :: i < |r| && r[i] == Import(paths[i], None))
      && ToSet(paths) <= ImportKeys(r)
      && InsertsInRange(r, paths, ImportKeys(r), |paths|) && Merged(r, paths, ImportKeys(r), |paths|) == r
  {
    hide Originals, FreshBefore, InsertsInRange, Shift;
    var existing := ImportKeys(body);
    var r := Merged(body, paths, existing, |paths|);
    OriginalsKept(body, paths, existing);
    forall i: nat | Fresh(paths, existing, i) ensures i < |r| && r[i] == Import(paths[i], None) {
      FreshInside(body, paths, existing, i);
    }
    forall p | p in paths ensures p in ImportKeys(r) {
      var i :| 0 <= i < |paths| && paths[i] == p;
      if Fresh(paths, existing, i) {
        assert ImportKey(r[i]).value in ImportKeys(r);
      } else {
        var j := KeyHasStmt(body, p);
        var k := OriginalInside(r, paths, existing, 0, j);
        assert ImportKey(r[k]).value in ImportKeys(r);
      }
    }
    NothingToInsert(r, paths);
  }

  /** A repeated request can run past the end: the module holds one import, two requests are skipped. */
  lemma RepeatedPathOverruns()
    ensures var body, paths := [Import("a", None)], ["a", "a", "b"];
      !InsertsInRange(body, paths, ImportKeys(body), |paths|)
  {
    var body, paths := [Import("a", None)], ["a", "a", "b"];
    assert ImportKeys(body) == {"a"};
    assert FreshBefore(paths, {"a"}, 2) == 0;
    assert !InsertInRange(body, paths, {"a"}, 2);
  }
  /** A request counts as imported exactly when a statement imports that path without another name, or the request
      spells out the path and the other name. */
  lemma {:induction false} ImportedAs(body: seq<Stmt>, request: string)
    ensures request in ImportKeys(body) <==>
      exists i :: 0 <= i < |body| && body[i].Import?
        && request == if body[i].asname.None? then body[i].path else body[i].path + " as " + body[i].asname.value
    decreases |body|
  {
    if body != [] {
      ImportedAs(body[1..], request);
      assert forall i | 0 < i < |body| :: body[i] == body[1..][i - 1];
      assert body[0] in body;
    }
  }
}
