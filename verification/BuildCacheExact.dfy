/** Exactly which packages the build cache is safe for: each way to go wrong is a run.
    kclvm/runner/src/assembler.rs:305-389, kclvm/config/src/cache.rs, kclvm/parser/src/lib.rs:602-645. */
module BuildCacheExact {
  import opened Wrappers
  import opened BuildCache
  import opened BuildCacheSafety
  import opened BuildCacheRuns

  /** The packages are safe when no run from an empty cache reaches a bad state. */
  ghost predicate Safe(cfg: Config, pkgs: set<Pkg>)
  {
    forall s, s' :: SafeFrom(cfg, pkgs, s, s')
  }

  ghost predicate SafeFrom(cfg: Config, pkgs: set<Pkg>, s: State, s': State)
  {
    Initial(cfg, s) && s.sources.Keys == pkgs && Reaches(cfg, s, s') ==> Good(cfg, s')
  }

  lemma SteadyIsSafe(cfg: Config, pkgs: set<Pkg>)
    requires NoCollisions(pkgs) && forall p | p in pkgs :: Steady(cfg, p)
    ensures Safe(cfg, pkgs)
  {
    hide Initial, Good, NoCollisions;
    forall s, s' ensures SafeFrom(cfg, pkgs, s, s') {
      if Initial(cfg, s) && s.sources.Keys == pkgs && Reaches(cfg, s, s') {
        var actions :| Run(cfg, s, actions) == Some(s');
        SafeRuns(cfg, s, actions);
      }
    }
  }

  lemma UnsafeBy(cfg: Config, pkgs: set<Pkg>, s: State, s': State)
    requires Initial(cfg, s) && s.sources.Keys == pkgs && Reaches(cfg, s, s') && !Good(cfg, s')
    ensures !Safe(cfg, pkgs)
  {
    assert !SafeFrom(cfg, pkgs, s, s');
  }

  // ----- sources for runs -----

  /** A source of the given layout that compiles to the text. */
  function SourceOf(layout: Layout, text: string, other: string): (src: Source)
    ensures src.Present() && src.Layout() == layout && src.Compiled() == text
  {
    var one := [KFile("1.k", text)];
    TwoFiles(one[0], one[0]);
    TwoFiles(KFile("1.k", other), KFile("1.k", other));
    match layout
    case Directory => Source(Some(one), None, None)
    case SkippingDirectory =>
      SkippedSecond(text, other);
      Source(Some([KFile("1.k", text), KFile("2_test.k", other)]), None, None)
    case SingleFile => Source(None, Some(text), None)
    case DirectoryAndFile => Source(Some(one), Some(other), None)
    case Shadowed => Source(Some([KFile("1.k", other)]), None, Some(Outside(true, text)))
    case NamedOutside => Source(None, None, Some(Outside(true, text)))
    case VendoredOutside => Source(None, None, Some(Outside(false, text)))
  }

  lemma SkippedSecond(text: string, other: string)
    ensures var files := [KFile("1.k", text), KFile("2_test.k", other)];
      LoadedFiles(files) == [files[0]] && TextOf(LoadedFiles(files)) == text && SkipsSome(files)
      && TextOf(files) == text + other
  {
    var files := [KFile("1.k", text), KFile("2_test.k", other)];
    assert files[1].Skipped();
    TwoFiles(files[0], files[1]);
  }

  lemma TwoFiles(f: KFile, g: KFile)
    ensures TextOf([f, g]) == f.text + g.text
    ensures LoadedFiles([f, g]) == (if f.Skipped() then [] else [f]) + (if g.Skipped() then [] else [g])
    ensures LoadedFiles([f]) == if f.Skipped() then [] else [f]
    ensures TextOf([f]) == f.text
  {
    assert [f, g][1..] == [g] && TextOf([g]) == g.text;
    assert [f, g][0] == f && [g][0] == g && [g][1..] == [] && LoadedFiles([g][1..]) == [];
    assert LoadedFiles([g]) == if g.Skipped() then [] else [g];
  }

  /** The same two texts with the first file's name changed to one that the loader passes over, and the
      second one's back. */
  function Renamed(text: string, other: string): (src: Source)
    ensures src.Present() && src.Layout() == SkippingDirectory && src.Compiled() == other
    ensures src.Digested() == text + other
  {
    var files := [KFile("1_test.k", text), KFile("2.k", other)];
    assert files[0].Skipped();
    TwoFiles(files[0], files[1]);
    TwoFiles(files[1], files[1]);
    assert LoadedFiles(files) == [files[1]] && TextOf([files[1]]) == other;
    Source(Some(files), None, None)
  }

  ghost function PickSource(cfg: Config, p: Pkg): (src: Source)
    requires cfg.layouts(p) != {}
    ensures cfg.Allowed(p, src)
  {
    var layout :| layout in cfg.layouts(p);
    SourceOf(layout, "", "")
  }

  ghost function SourcesWith(cfg: Config, pkgs: set<Pkg>, p: Pkg, src: Source): (sources: map<Pkg, Source>)
    requires p in pkgs && cfg.Allowed(p, src) && forall k | k in pkgs :: cfg.layouts(k) != {}
    ensures sources.Keys == pkgs && sources[p] == src && Initial(cfg, NoCache(sources))
    ensures forall k | k in pkgs :: sources[k].Present()
  {
    map k | k in pkgs :: if k == p then src else PickSource(cfg, k)
  }

  /** A process starts on one package, without overrides. */
  lemma StartsOn(cfg: Config, s0: State, s: State, pid: Pid, p: Pkg) returns (s': State)
    requires Reaches(cfg, s0, s) && pid !in s.procs && p in s.sources && s.sources[p].Present()
    ensures Reaches(cfg, s0, s') && Sits(s', pid, p, Ready) && s'.procs[pid].todo == [p] && s'.procs[pid].libs == {}
    ensures s'.procs[pid].program[p] == s.sources[p].Compiled()
    ensures s' == s.(procs := s.procs[pid := s'.procs[pid]])
    ensures p !in s.files || NotRecorded(cfg, s, p) ==> p !in s'.files || NotRecorded(cfg, s', p)
  {
    hide Reaches, InfoOf;
    assert p in [p];
    s' := Starts(cfg, s0, s, pid, [p], map[]);
  }

  // ----- stale hits, one process after the other -----

  /** A first process builds the package from the text given and exits. */
  lemma BuildsAndExits(cfg: Config, s0: State, s: State, p: Pkg, overrides: map<Pkg, string>) returns (s': State)
    requires Reaches(cfg, s0, s) && s.procs == map[] && s.locks == map[] && CanStart(cfg, s, [p], overrides)
    requires p !in s.files || NotRecorded(cfg, s, p)
    ensures Reaches(cfg, s0, s') && s'.procs == map[] && s'.locks == map[] && s'.sources == s.sources
    ensures p in s.sources && Built(cfg, s, s', p, Program(s.sources, [p], overrides)[p])
  {
    hide Reaches, InfoOf, ObjectName, DataLock, PkgLock, RecordedFiles;
    assert p in [p];
    s' := Starts(cfg, s0, s, 0, [p], overrides);
    SameSources(cfg, s', s, p, s.files);
    s' := Builds(cfg, s0, s', 0, p);
    s' := Exits(cfg, s0, s', 0);
    assert s'.procs == map[];
  }

  /** A later process hits although it compiles another text. */
  lemma HitsStale(cfg: Config, s0: State, s: State, p: Pkg, overrides: map<Pkg, string>)
    requires Reaches(cfg, s0, s) && s.procs == map[] && s.locks == map[] && CanStart(cfg, s, [p], overrides)
    requires p in s.sources && HasData(s.files, p) && ObjectName(p) in s.files && s.files[ObjectName(p)].Object?
    requires RecordedOrUnchecked(cfg, s, p)
    requires cfg.digest(s.files[ObjectName(p)].text) != cfg.digest(Program(s.sources, [p], overrides)[p])
    ensures exists s' :: Reaches(cfg, s0, s') && !Good(cfg, s')
  {
    hide Reaches, InfoOf, ObjectName, DataLock, PkgLock;
    assert p in [p];
    var s' := Starts(cfg, s0, s, 0, [p], overrides);
    s' := Hits(cfg, s0, s', 0, p);
    assert p in s'.procs[0].libs && !Usable(cfg, s', s'.procs[0], p);
  }

  /** The second source is found under the record of the first one. */
  predicate Rehit(cfg: Config, p: Pkg, one: Source, two: Source)
  {
    || !two.Checked()
    || (one.Inside() && RealPathOf(p, one) == RealPathOf(p, two)
        && cfg.digest(one.Digested()) == cfg.digest(two.Digested()))
  }

  lemma GoesStale(cfg: Config, sources: map<Pkg, Source>, p: Pkg, two: Source, first: map<Pkg, string>,
                  second: map<Pkg, string>)
    requires Initial(cfg, NoCache(sources)) && p in sources && cfg.Allowed(p, two)
    requires p != INFO || !two.Checked()
    requires Rehit(cfg, p, sources[p], two)
    requires forall k | k in first || k in second :: cfg.overridden(k)
    requires cfg.digest(if p in first then first[p] else sources[p].Compiled())
      != cfg.digest(if p in second then second[p] else two.Compiled())
    ensures exists s' :: Reaches(cfg, NoCache(sources), s') && !Good(cfg, s')
  {
    hide Reaches, ObjectName, Good;
    var s0 := NoCache(sources);
    ReachesSelf(cfg, s0);
    var s := BuildsAndExits(cfg, s0, s0, p, first);
    var s' := Edits(cfg, s0, s, p, two);
    HitsStale(cfg, s0, s', p, second);
  }

  /** A package that turns from a directory into a file and back finds the first digest again, next to the
      object of the second. */
  lemma SwitchingFormsGoesStale(cfg: Config, sources: map<Pkg, Source>, p: Pkg, a: string, b: string)
    requires Initial(cfg, NoCache(sources)) && p in sources && p != INFO && cfg.digest(a) != cfg.digest(b)
    requires {Directory, SingleFile} <= cfg.layouts(p) && sources[p] == SourceOf(Directory, a, a)
    ensures exists s' :: Reaches(cfg, NoCache(sources), s') && !Good(cfg, s')
  {
    hide Reaches, ObjectName, Good, LoadedFiles, TextOf;
    var s0 := NoCache(sources);
    var file := SourceOf(SingleFile, b, b);
    ReachesSelf(cfg, s0);
    var s := BuildsAndExits(cfg, s0, s0, p, map[]);
    s := Edits(cfg, s0, s, p, file);
    var s2 := BuildsAndExits(cfg, s0, s, p, map[]);
    var s3 := Edits(cfg, s0, s2, p, sources[p]);
    assert RecordedOrUnchecked(cfg, s3, p);
    HitsStale(cfg, s0, s3, p, map[]);
  }

  // ----- an object that disappears under a running process -----

  /** Whether the record fits does not depend on the processes. */
  lemma NothingChanges(cfg: Config, s: State, p: Pkg)
    requires p in s.sources
    ensures forall procs :: NotRecorded(cfg, s.(procs := procs), p) <==> NotRecorded(cfg, s, p)
  {
  }

  lemma Cleans(cfg: Config, s0: State, s: State, pid: Pid, p: Pkg) returns (s': State)
    requires Reaches(cfg, s0, s) && Sits(s, pid, p, Missed)
    ensures Reaches(cfg, s0, s') && s' == Moved(s, pid, Cleaned, s.files - {ObjectName(p)}, s.locks)
  {
    hide Reaches, ObjectName;
    s' := Moves(cfg, s0, s, pid, p, Missed);
  }

  /** One process has collected the package; another one looks in vain and removes the object. */
  lemma RemovesCollected(cfg: Config, s0: State, s: State, pid: Pid, other: Pid, p: Pkg)
    requires Reaches(cfg, s0, s) && pid in s.procs && p in s.procs[pid].libs && other !in s.procs
    requires p in s.sources && s.sources[p].Present() && PkgLock(p) !in s.locks
    requires p !in s.files || NotRecorded(cfg, s, p)
    ensures exists s' :: Reaches(cfg, s0, s') && !Good(cfg, s')
  {
    hide Reaches, InfoOf, ObjectName, PkgLock, Opened, NotRecorded;
    var s' := StartsOn(cfg, s0, s, other, p);
    s' := LooksInVain(cfg, s0, s', other, p);
    s' := Cleans(cfg, s0, s', other, p);
    assert s'.procs[pid] == s.procs[pid];
    assert !Usable(cfg, s', s'.procs[pid], p);
  }

  /** The first process builds the package and stays with the path it collected. */
  lemma BuildsAndStays(cfg: Config, s0: State, s: State, pid: Pid, p: Pkg) returns (s': State)
    requires Reaches(cfg, s0, s) && pid !in s.procs && Free(s, p) && p in s.sources && s.sources[p].Present()
    requires p !in s.files || NotRecorded(cfg, s, p)
    ensures Reaches(cfg, s0, s') && Built(cfg, s, s', p, s.sources[p].Compiled())
    ensures s'.sources == s.sources && pid in s'.procs && s'.procs[pid].libs == {p}
    ensures s'.procs == s.procs[pid := s'.procs[pid]] && s'.procs[pid].todo == []
  {
    hide Reaches, InfoOf, ObjectName, DataLock, PkgLock, RecordedFiles, NotRecorded;
    var t := StartsOn(cfg, s0, s, pid, p);
    SameSources(cfg, t, s, p, s.files);
    s' := Builds(cfg, s0, t, pid, p);
    assert s'.procs[pid].libs == {p};
  }

  /** An external package that is passed by name has its digest looked for and never recorded, so every
      process builds it again, under the feet of those that use it. */
  lemma NamedOutsideIsRemoved(cfg: Config, sources: map<Pkg, Source>, p: Pkg)
    requires Initial(cfg, NoCache(sources)) && p in sources && sources[p].Layout() == NamedOutside
    ensures exists s' :: Reaches(cfg, NoCache(sources), s') && !Good(cfg, s')
  {
    hide Reaches, ObjectName, PkgLock, DataLock, Good;
    var s0 := NoCache(sources);
    ReachesSelf(cfg, s0);
    var s := BuildsAndStays(cfg, s0, s0, 0, p);
    RemovesCollected(cfg, s0, s, 0, 1, p);
  }

  // ----- names that collide -----

  /** The data file of the package `info` is the digest file: every record is gone. */
  lemma InfoPackageErasesRecords(cfg: Config, sources: map<Pkg, Source>)
    requires Initial(cfg, NoCache(sources)) && INFO in sources && sources[INFO].Checked()
    ensures exists s' :: Reaches(cfg, NoCache(sources), s') && !Good(cfg, s')
  {
    hide Reaches, ObjectName, PkgLock, DataLock, Good;
    var s0 := NoCache(sources);
    ReachesSelf(cfg, s0);
    var s := BuildsAndStays(cfg, s0, s0, 0, INFO);
    RemovesCollected(cfg, s0, s, 0, 1, INFO);
  }

  /** The data file of `a.o` is the object of `a`. */
  lemma DataFileReplacesObject(cfg: Config, sources: map<Pkg, Source>, p: Pkg)
    requires Initial(cfg, NoCache(sources)) && p in sources && ObjectName(p) in sources && p != INFO
    requires sources[ObjectName(p)].Inside()
    ensures exists s' :: Reaches(cfg, NoCache(sources), s') && !Good(cfg, s')
  {
    hide Reaches, PkgLock, DataLock;
    var s0, q := NoCache(sources), ObjectName(p);
    NamesApart(p, q);
    hide ObjectName;
    ReachesSelf(cfg, s0);
    var s := BuildsAndStays(cfg, s0, s0, 0, p);
    NothingRecorded(cfg, s0, s, p, q);
    s := BuildsAndStays(cfg, s0, s, 1, q);
    assert !Usable(cfg, s, s.procs[0], p);
  }

  /** A build records its own package only. */
  lemma NothingRecorded(cfg: Config, s: State, s': State, p: Pkg, q: Pkg)
    requires p in s.sources && q in s.sources && p != q && s'.sources == s.sources && s.sources[q].Checked()
    requires InfoOf(s.files) == map[] && Built(cfg, s, s', p, s.sources[p].Compiled())
    ensures NotRecorded(cfg, s', q)
  {
  }

  /** The data file of `a.o.lock` takes the place of the lock file of `a`, which two processes then hold: the
      second one collects an object that the first one removes. */
  lemma DataFileReplacesLock(cfg: Config, sources: map<Pkg, Source>, p: Pkg)
    requires Initial(cfg, NoCache(sources)) && p in sources && PkgLock(p) in sources && p != INFO
    requires sources[p].Checked() && sources[PkgLock(p)].Checked()
    ensures exists s' :: Reaches(cfg, NoCache(sources), s') && !Good(cfg, s')
  {
    hide Reaches, PkgLock, DataLock, ObjectName;
    var s0, q := NoCache(sources), PkgLock(p);
    NamesApart(p, q);
    NamesApart(q, q);
    NamesApart(q, p);
    var s := LockedAndMissed(cfg, sources, p);
    assert NotRecorded(cfg, s, q);
    var s1 := BuildsAndStays(cfg, s0, s, 1, q);
    NothingRecorded(cfg, s, s1, q, p);
    assert s1.procs[0] == s.procs[0];
    hide InfoOf, Opened, RecordedFiles, NotRecorded;
    var s2 := BuildsAndStays(cfg, s0, s1, 2, p);
    assert s2.procs[0] == s.procs[0];
    var s3 := Cleans(cfg, s0, s2, 0, p);
    assert s3.procs[2] == s2.procs[2] && !Usable(cfg, s3, s3.procs[2], p);
  }

  lemma LockedAndMissed(cfg: Config, sources: map<Pkg, Source>, p: Pkg) returns (s: State)
    requires Initial(cfg, NoCache(sources)) && p in sources
    ensures Reaches(cfg, NoCache(sources), s) && s.sources == sources && Sits(s, 0, p, Missed) && s.procs.Keys == {0}
    ensures InfoOf(s.files) == map[] && s.locks == map[PkgLock(p) := 0]
  {
    hide Reaches, PkgLock, DataLock, ObjectName;
    var s0 := NoCache(sources);
    NamesApart(p, p);
    ReachesSelf(cfg, s0);
    assert p in [p];
    s := Starts(cfg, s0, s0, 0, [p], map[]);
    OpenedKeepsInfo(s.files, PkgLock(p));
    hide Opened;
    s := LooksInVain(cfg, s0, s, 0, p);
  }

  /** The digest file has a record of the package and no other. */
  predicate OnlyRecordOf(cfg: Config, s: State, p: Pkg)
    requires p in s.sources
  {
    InfoOf(s.files) == map[RealPathOf(p, s.sources[p]) := Now(cfg, s, p)]
  }

  /** A first process has recorded `info.lock` and is about to put its data file in place. */
  ghost predicate AboutToSave(cfg: Config, s: State)
  {
    && s.procs.Keys == {0} && Sits(s, 0, INFO_LOCK, DataLocked) && OnlyRecordOf(cfg, s, INFO_LOCK)
    && s.locks == map[PkgLock(INFO_LOCK) := 0, DataLock(INFO_LOCK) := 0]
  }

  lemma ReachesAboutToSave(cfg: Config, sources: map<Pkg, Source>) returns (s: State)
    requires Initial(cfg, NoCache(sources)) && INFO_LOCK in sources && sources[INFO_LOCK].Inside()
    ensures Reaches(cfg, NoCache(sources), s) && s.sources == sources && AboutToSave(cfg, s)
  {
    hide Reaches, PkgLock, DataLock, ObjectName, Opened, InfoOf, RecordedFiles, NotRecorded;
    var s0, q := NoCache(sources), INFO_LOCK;
    var t := FirstBuild(cfg, sources, q);
    FirstRecord(cfg, t, q, t.procs[0].program[q]);
    LockNamesApart(q);
    s := Records(cfg, s0, t, 0, q);
    s := LocksData(cfg, s0, s, 0, q);
  }

  lemma FirstBuild(cfg: Config, sources: map<Pkg, Source>, q: Pkg) returns (s: State)
    requires Initial(cfg, NoCache(sources)) && q in sources
    ensures Reaches(cfg, NoCache(sources), s) && s.sources == sources && s.procs.Keys == {0} && Sits(s, 0, q, Emitted)
    ensures s.files == Opened(map[], PkgLock(q))[ObjectName(q) := Object(s.procs[0].program[q])]
    ensures s.locks == map[PkgLock(q) := 0]
  {
    hide Reaches, PkgLock, DataLock, ObjectName, Opened, InfoOf, NotRecorded;
    var s0 := NoCache(sources);
    ReachesSelf(cfg, s0);
    assert q in [q];
    s := Starts(cfg, s0, s0, 0, [q], map[]);
    s := Prepares(cfg, s0, s, 0, q);
  }

  lemma LockNamesApart(q: Pkg)
    requires q != INFO
    ensures PkgLock(q) != INFO_LOCK && DataLock(q) != PkgLock(q) && DataLock(q) != INFO_LOCK
  {
    NamesApart(q, q);
  }

  lemma FirstRecord(cfg: Config, s: State, q: Pkg, text: string)
    requires q in s.sources && s.sources[q].Inside()
    requires s.files == Opened(map[], PkgLock(q))[ObjectName(q) := Object(text)]
    ensures InfoOf(Opened(RecordedFiles(cfg, s, q, s.files), DataLock(q)))
      == map[RealPathOf(q, s.sources[q]) := Now(cfg, s, q)]
  {
    NamesApart(q, q);
    hide PkgLock, DataLock, ObjectName;
  }

  /** A second process at `p` holds the lock of the digest file and has read it, when the first one's data
      file takes the place of the lock file. */
  ghost predicate LockReplaced(cfg: Config, s: State, p: Pkg)
  {
    && INFO_LOCK in s.sources && p in s.sources
    && s.procs.Keys == {0, 1} && OnlyRecordOf(cfg, s, INFO_LOCK)
    && Sits(s, 1, p, InfoCopied(Now(cfg, s, p), InfoOf(s.files)))
    && s.locks == map[PkgLock(p) := 1]
  }

  lemma ReachesLockReplaced(cfg: Config, s0: State, s: State, p: Pkg) returns (s': State)
    requires Reaches(cfg, s0, s) && AboutToSave(cfg, s) && p != INFO_LOCK && p != INFO
    requires p in s.sources && s.sources[p].Present() && s.sources[p].Inside()
    ensures Reaches(cfg, s0, s') && s'.sources == s.sources && LockReplaced(cfg, s', p)
  {
    hide Reaches, PkgLock, DataLock, ObjectName, InfoOf, Released;
    var t := ReachesBothHolding(cfg, s0, s, p);
    LocksReplaced(p);
    RecordKept(t, INFO_LOCK);
    s' := SavesData(cfg, s0, t, 0, INFO_LOCK);
    assert s'.procs[1] == t.procs[1];
  }

  /** The second process takes the lock of the digest file while the first one holds that of its data file. */
  ghost predicate BothHolding(cfg: Config, s: State, p: Pkg)
  {
    && Sits(s, 0, INFO_LOCK, DataLocked) && p in s.sources && OnlyRecordOf(cfg, s, INFO_LOCK)
    && Sits(s, 1, p, InfoCopied(Now(cfg, s, p), InfoOf(s.files))) && s.procs.Keys == {0, 1}
    && s.locks == map[PkgLock(INFO_LOCK) := 0, DataLock(INFO_LOCK) := 0][PkgLock(p) := 1][INFO_LOCK := 1]
  }

  lemma ReachesBothHolding(cfg: Config, s0: State, s: State, p: Pkg) returns (s': State)
    requires Reaches(cfg, s0, s) && AboutToSave(cfg, s) && p != INFO_LOCK && p != INFO
    requires p in s.sources && s.sources[p].Present() && s.sources[p].Inside()
    ensures Reaches(cfg, s0, s') && s'.sources == s.sources && BothHolding(cfg, s', p)
  {
    hide Reaches, PkgLock, DataLock, ObjectName, InfoOf, NotRecorded;
    NamesApart(INFO_LOCK, p);
    NamesApart(p, INFO_LOCK);
    OtherIsNotRecorded(cfg, s, INFO_LOCK, p);
    NothingChanges(cfg, s, p);
    var t := StartsOn(cfg, s0, s, 1, p);
    SameNow(cfg, s, t, p);
    SameNow(cfg, s, t, INFO_LOCK);
    hide Now;
    s' := Copies(cfg, s0, t, p);
    assert s'.procs[0] == s.procs[0];
    SameNow(cfg, s, s', p);
    SameNow(cfg, s, s', INFO_LOCK);
  }

  lemma OtherIsNotRecorded(cfg: Config, s: State, q: Pkg, p: Pkg)
    requires q in s.sources && p in s.sources && q != p && OnlyRecordOf(cfg, s, q) && s.sources[p].Checked()
    ensures forall procs :: NotRecorded(cfg, s.(procs := procs), p)
  {
  }

  lemma RecordKept(s: State, p: Pkg)
    requires p != INFO
    ensures InfoOf(s.files[p := Data]) == InfoOf(s.files)
  {
  }

  lemma LocksReplaced(p: Pkg)
    requires p != INFO_LOCK && p != INFO
    ensures var q := INFO_LOCK;
      var locks := map[PkgLock(q) := 0, DataLock(q) := 0][PkgLock(p) := 1][q := 1];
      Released(Released(locks - {q}, 0, DataLock(q)), 0, PkgLock(q)) == map[PkgLock(p) := 1]
  {
    NamesApart(INFO_LOCK, p);
    NamesApart(p, INFO_LOCK);
    NamesApart(INFO_LOCK, INFO_LOCK);
    hide PkgLock, DataLock, ObjectName;
  }

  lemma ObjectKeepsInfo(files: Files, p: Pkg, code: Content)
    ensures InfoOf(Opened(files, PkgLock(p))[ObjectName(p) := code]) == InfoOf(files)
  {
    NamesApart(p, p);
    hide ObjectName, PkgLock;
  }

  lemma SameNow(cfg: Config, s: State, s': State, p: Pkg)
    requires p in s.sources && s'.sources == s.sources
    ensures Now(cfg, s', p) == Now(cfg, s, p)
  {
  }

  lemma MovedIs(s: State, pid: Pid, pc: Pc, files: Files, locks: map<string, Pid>)
    requires pid in s.procs
    ensures Moved(s, pid, pc, files, locks)
      == s.(files := files, locks := locks, procs := s.procs[pid := s.procs[pid].(pc := pc)])
  {
  }

  /** The second process up to its copy of the digest file. */
  lemma Copies(cfg: Config, s0: State, s: State, p: Pkg) returns (s': State)
    requires Reaches(cfg, s0, s) && Sits(s, 1, p, Ready) && PkgLock(p) !in s.locks && INFO_LOCK !in s.locks
    requires p != INFO && s.sources[p].Inside() && (p !in s.files || NotRecorded(cfg, s, p))
    ensures Reaches(cfg, s0, s') && Sits(s', 1, p, InfoCopied(Now(cfg, s, p), InfoOf(s.files)))
    ensures InfoOf(s'.files) == InfoOf(s.files) && s'.locks == s.locks[PkgLock(p) := 1][INFO_LOCK := 1]
    ensures s' == s.(files := s'.files, locks := s'.locks,
                     procs := s.procs[1 := s.procs[1].(pc := InfoCopied(Now(cfg, s, p), InfoOf(s.files)))])
  {
    hide Reaches, PkgLock, DataLock, ObjectName, Moved, NotRecorded, Opened, InfoOf, Now;
    NamesApart(p, p);
    MovedTwice();
    ObjectKeepsInfo(s.files, p, Object(s.procs[1].program[p]));
    s' := Prepares(cfg, s0, s, 1, p);
    OpenedKeepsInfo(s'.files, INFO_LOCK);
    SameNow(cfg, s, s', p);
    s' := CopiesInfo(cfg, s0, s', 1, p);
    MovedIs(s, 1, s'.procs[1].pc, s'.files, s'.locks);
  }

  /** A third process builds `r` in the meantime; its record is in the digest file but not in the copy that
      the second process holds. */
  ghost predicate CopyIsOld(cfg: Config, s: State, p: Pkg, r: Pkg)
  {
    && p in s.sources && r in s.sources && p != r && RealPathOf(r, s.sources[r]) in InfoOf(s.files)
    && 1 in s.procs && s.procs[1].pc.InfoCopied? && Sits(s, 1, p, s.procs[1].pc)
    && RealPathOf(r, s.sources[r]) !in s.procs[1].pc.copy
    && 2 in s.procs && r in s.procs[2].libs && 3 !in s.procs && PkgLock(r) !in s.locks
  }

  lemma ReachesCopyIsOld(cfg: Config, s0: State, s: State, p: Pkg, r: Pkg) returns (s': State)
    requires Reaches(cfg, s0, s) && LockReplaced(cfg, s, p) && p != r && r != INFO_LOCK && r != INFO && p != INFO
    requires r != ObjectName(p) && r in s.sources && s.sources[r].Present() && s.sources[r].Inside()
    ensures Reaches(cfg, s0, s') && s'.sources == s.sources && CopyIsOld(cfg, s', p, r)
  {
    hide Reaches, PkgLock, DataLock, ObjectName, InfoOf, Opened, RecordedFiles, NotRecorded, Now;
    NamesApart(p, r);
    NamesApart(r, p);
    NamesApart(r, r);
    OtherIsNotRecorded(cfg, s, INFO_LOCK, r);
    NothingChanges(cfg, s, r);
    RecordsOne(cfg, s, r, s.files);
    assert RealPathOf(r, s.sources[r]) !in InfoOf(s.files);
    s' := BuildsAndStays(cfg, s0, s, 2, r);
    assert s'.procs[1] == s.procs[1];
  }

  lemma RecordsOne(cfg: Config, s: State, p: Pkg, files: Files)
    requires p in s.sources && s.sources[p].Inside()
    ensures InfoOf(RecordedFiles(cfg, s, p, files)) == InfoOf(files)[RealPathOf(p, s.sources[p]) := Now(cfg, s, p)]
  {
  }

  /** The second process writes its copy, and the record of `r` is gone. */
  ghost predicate LosesRecord(cfg: Config, s: State, s': State, r: Pkg)
  {
    && Do(cfg, s, Advance(1)) == Some(s') && r in s.sources && s'.sources == s.sources
    && RealPathOf(r, s.sources[r]) in InfoOf(s.files) && RealPathOf(r, s.sources[r]) !in InfoOf(s'.files)
    && 2 in s'.procs && r in s'.procs[2].libs && 3 !in s'.procs && PkgLock(r) !in s'.locks
  }

  lemma Loses(cfg: Config, s0: State, s: State, p: Pkg, r: Pkg) returns (s': State)
    requires Reaches(cfg, s0, s) && CopyIsOld(cfg, s, p, r)
    ensures Reaches(cfg, s0, s') && LosesRecord(cfg, s, s', r)
  {
    hide Reaches, PkgLock, DataLock, ObjectName, Do;
    s' := Moves(cfg, s0, s, 1, p, s.procs[1].pc);
  }

  /** The data file of `info.lock` takes the place of the lock of the digest file, which two processes then
      hold: the record that one of them writes is lost when the other one writes. */
  lemma DataFileReplacesInfoLock(cfg: Config, sources: map<Pkg, Source>, p: Pkg, r: Pkg) returns (s: State, s': State)
    requires Initial(cfg, NoCache(sources)) && INFO_LOCK in sources && p in sources && r in sources
    requires p != INFO_LOCK && r != INFO_LOCK && p != r && p != INFO && r != INFO && r != ObjectName(p)
    requires sources[INFO_LOCK].Inside() && sources[p].Inside() && sources[r].Inside()
    ensures Reaches(cfg, NoCache(sources), s) && Reaches(cfg, NoCache(sources), s')
    ensures s.sources == sources && LosesRecord(cfg, s, s', r)
  {
    hide Reaches, PkgLock, DataLock, ObjectName, AboutToSave, LockReplaced, CopyIsOld, LosesRecord;
    var s0 := NoCache(sources);
    s := ReachesAboutToSave(cfg, sources);
    s := ReachesLockReplaced(cfg, s0, s, p);
    s := ReachesCopyIsOld(cfg, s0, s, p, r);
    s' := Loses(cfg, s0, s, p, r);
  }

  lemma LostRecordIsUnsafe(cfg: Config, s0: State, s: State, s': State, r: Pkg)
    requires Reaches(cfg, s0, s') && LosesRecord(cfg, s, s', r) && s'.sources[r].Present() && s'.sources[r].Checked()
    ensures exists t :: Reaches(cfg, s0, t) && !Good(cfg, t)
  {
    hide Reaches, PkgLock, DataLock, ObjectName, Good, Do;
    RemovesCollected(cfg, s0, s', 2, 3, r);
  }

  // ----- exactly -----

  /** Some run of the packages goes wrong. */
  ghost predicate GoesWrong(cfg: Config, sources: map<Pkg, Source>)
  {
    Initial(cfg, NoCache(sources)) && exists s' :: Reaches(cfg, NoCache(sources), s') && !Good(cfg, s')
  }

  lemma WrongIsUnsafe(cfg: Config, pkgs: set<Pkg>, sources: map<Pkg, Source>)
    requires sources.Keys == pkgs && GoesWrong(cfg, sources)
    ensures !Safe(cfg, pkgs)
  {
    hide Reaches, Good, Safe, Initial;
    var s' :| Reaches(cfg, NoCache(sources), s') && !Good(cfg, s');
    UnsafeBy(cfg, pkgs, NoCache(sources), s');
  }

  /** Packages with at least one layout each, and a digest that tells two texts apart. */
  ghost predicate Setting(cfg: Config, pkgs: set<Pkg>, a: string, b: string)
  {
    cfg.digest(a) != cfg.digest(b) && forall p | p in pkgs :: cfg.layouts(p) != {}
  }

  /** One package whose file is digested while the directory is compiled, whose directory has files that are
      passed over, or whose compiled text is outside while the root is digested: the digest stays, the text
      changes. */
  lemma OneLayoutGoesStale(cfg: Config, pkgs: set<Pkg>, p: Pkg, layout: Layout, a: string, b: string)
    requires Setting(cfg, pkgs, a, b) && p in pkgs && layout in cfg.layouts(p)
    requires layout !in {Directory, SingleFile, NamedOutside} && (p == INFO ==> layout == VendoredOutside)
    ensures !Safe(cfg, pkgs)
  {
    hide Initial, Good, Reaches, Safe, LoadedFiles, TextOf;
    var two := if layout == SkippingDirectory then Renamed(a, b) else SourceOf(layout, b, a);
    var sources := SourcesWith(cfg, pkgs, p, SourceOf(layout, a, if layout == SkippingDirectory then b else a));
    LayoutDigests(layout, a, b);
    GoesStale(cfg, sources, p, two, map[], map[]);
    WrongIsUnsafe(cfg, pkgs, sources);
  }

  lemma LayoutDigests(layout: Layout, a: string, b: string)
    ensures layout == SkippingDirectory ==> SourceOf(layout, a, b).Digested() == a + b
    ensures layout == DirectoryAndFile || layout == Shadowed ==>
      SourceOf(layout, a, a).Digested() == a == SourceOf(layout, b, a).Digested()
  {
    SkippedSecond(a, b);
    TwoFiles(KFile("1.k", a), KFile("1.k", a));
  }

  lemma OverriddenGoesStale(cfg: Config, pkgs: set<Pkg>, p: Pkg, layout: Layout, a: string, b: string)
    requires Setting(cfg, pkgs, a, b) && p in pkgs && layout in cfg.layouts(p) && p != INFO
    requires cfg.overridden(p) && layout != NamedOutside
    ensures !Safe(cfg, pkgs)
  {
    hide Initial, Good, Reaches, Safe, LoadedFiles, TextOf;
    var src := SourceOf(layout, a, a);
    var sources := SourcesWith(cfg, pkgs, p, src);
    GoesStale(cfg, sources, p, src, map[p := a], map[p := b]);
    WrongIsUnsafe(cfg, pkgs, sources);
  }

  lemma NamedOutsideIsUnsafe(cfg: Config, pkgs: set<Pkg>, p: Pkg, a: string, b: string)
    requires Setting(cfg, pkgs, a, b) && p in pkgs && NamedOutside in cfg.layouts(p)
    ensures !Safe(cfg, pkgs)
  {
    hide Initial, Good, Reaches, Safe, LoadedFiles, TextOf;
    var sources := SourcesWith(cfg, pkgs, p, SourceOf(NamedOutside, a, a));
    NamedOutsideIsRemoved(cfg, sources, p);
    WrongIsUnsafe(cfg, pkgs, sources);
  }

  lemma SwitchingIsUnsafe(cfg: Config, pkgs: set<Pkg>, p: Pkg, a: string, b: string)
    requires Setting(cfg, pkgs, a, b) && p in pkgs && {Directory, SingleFile} <= cfg.layouts(p) && p != INFO
    ensures !Safe(cfg, pkgs)
  {
    hide Initial, Good, Reaches, Safe, LoadedFiles, TextOf;
    var sources := SourcesWith(cfg, pkgs, p, SourceOf(Directory, a, a));
    SwitchingFormsGoesStale(cfg, sources, p, a, b);
    WrongIsUnsafe(cfg, pkgs, sources);
  }

  lemma InfoIsUnsafe(cfg: Config, pkgs: set<Pkg>, a: string, b: string)
    requires Setting(cfg, pkgs, a, b) && INFO in pkgs
    ensures !Safe(cfg, pkgs)
  {
    var layout :| layout in cfg.layouts(INFO);
    if layout == VendoredOutside {
      OneLayoutGoesStale(cfg, pkgs, INFO, layout, a, b);
    } else {
      hide Initial, Good, Reaches, Safe, LoadedFiles, TextOf;
      var sources := SourcesWith(cfg, pkgs, INFO, SourceOf(layout, a, a));
      InfoPackageErasesRecords(cfg, sources);
      WrongIsUnsafe(cfg, pkgs, sources);
    }
  }

  /** A package that does not keep one form under the root, whatever the others do. */
  lemma UnsteadyIsUnsafe(cfg: Config, pkgs: set<Pkg>, p: Pkg, a: string, b: string)
    requires Setting(cfg, pkgs, a, b) && p in pkgs && !Steady(cfg, p)
    ensures !Safe(cfg, pkgs)
  {
    hide Safe;
    if INFO in pkgs {
      InfoIsUnsafe(cfg, pkgs, a, b);
    } else if NamedOutside in cfg.layouts(p) {
      NamedOutsideIsUnsafe(cfg, pkgs, p, a, b);
    } else if layout :| layout in cfg.layouts(p) && layout != Directory && layout != SingleFile {
      OneLayoutGoesStale(cfg, pkgs, p, layout, a, b);
    } else if cfg.overridden(p) {
      var layout :| layout in cfg.layouts(p);
      OverriddenGoesStale(cfg, pkgs, p, layout, a, b);
    } else {
      BothForms(cfg.layouts(p));
      SwitchingIsUnsafe(cfg, pkgs, p, a, b);
    }
  }

  lemma BothForms(ls: set<Layout>)
    requires !(ls <= {Directory}) && !(ls <= {SingleFile}) && ls <= {Directory, SingleFile}
    ensures {Directory, SingleFile} <= ls
  {
    var x :| x in ls && x != Directory;
    var y :| y in ls && y != SingleFile;
    assert x == SingleFile && y == Directory;
  }

  /** Packages under the root whose names collide. */
  lemma CollisionsAreUnsafe(cfg: Config, pkgs: set<Pkg>, a: string, b: string)
    requires Setting(cfg, pkgs, a, b) && !NoCollisions(pkgs) && forall p | p in pkgs :: Steady(cfg, p)
    ensures !Safe(cfg, pkgs)
  {
    hide Safe;
    if INFO in pkgs {
      InfoIsUnsafe(cfg, pkgs, a, b);
    } else {
      var sources := map p | p in pkgs :: PickSource(cfg, p);
      assert sources.Keys == pkgs && Initial(cfg, NoCache(sources));
      forall p | p in pkgs ensures sources[p].Inside() && sources[p].Checked() { SteadySource(cfg, p, sources[p]); }
      hide Initial, Good, Reaches;
      if p :| p in pkgs && ObjectName(p) in pkgs {
        DataFileReplacesObject(cfg, sources, p);
      } else if p :| p in pkgs && PkgLock(p) in pkgs {
        DataFileReplacesLock(cfg, sources, p);
      } else {
        var p, r := TwoOthers(pkgs);
        var s, s' := DataFileReplacesInfoLock(cfg, sources, p, r);
        LostRecordIsUnsafe(cfg, NoCache(sources), s, s', r);
      }
      WrongIsUnsafe(cfg, pkgs, sources);
    }
  }

  lemma TwoOthers(pkgs: set<Pkg>) returns (p: Pkg, r: Pkg)
    requires INFO_LOCK in pkgs && |pkgs| > 2
    ensures p in pkgs && r in pkgs && p != r && p != INFO_LOCK && r != INFO_LOCK
  {
    var rest := pkgs - {INFO_LOCK};
    assert |rest| > 1;
    p :| p in rest;
    assert |rest - {p}| > 0;
    r :| r in rest - {p};
  }

  /** The cache is sound in every interleaving exactly when every package keeps one form under the root, has
      no files that the loader passes over, and is not overridden, and no names collide in the cache directory
      (for packages that exist in some layout, and a digest that tells some contents apart). */
  lemma SafeExactlyWhenSteady(cfg: Config, pkgs: set<Pkg>, a: string, b: string)
    requires Setting(cfg, pkgs, a, b)
    ensures Safe(cfg, pkgs) <==> NoCollisions(pkgs) && forall p | p in pkgs :: Steady(cfg, p)
  {
    hide Safe, NoCollisions, Steady, Setting;
    if p :| p in pkgs && !Steady(cfg, p) {
      UnsteadyIsUnsafe(cfg, pkgs, p, a, b);
    } else if NoCollisions(pkgs) {
      SteadyIsSafe(cfg, pkgs);
    } else {
      CollisionsAreUnsafe(cfg, pkgs, a, b);
    }
  }
}
