/** Runs of the build cache over packages that keep one form and whose file names do not collide: every hit
    returns an object of the current sources. kclvm/runner/src/assembler.rs:305-389,
    kclvm/config/src/cache.rs. */
module BuildCacheSafety {
  import opened Wrappers
  import opened BuildCache

  // ----- conditions -----

  /** The package is always a directory under the root without files that the loader passes over, or always
      a single file there, and no override changes it. */
  predicate Steady(cfg: Config, p: Pkg)
  {
    !cfg.overridden(p) && (cfg.layouts(p) <= {Directory} || cfg.layouts(p) <= {SingleFile})
  }

  /** No two packages get in each other's way in the cache directory: no data file takes the name of the
      digest file, of an object, or of a package lock; and none takes the name of the lock of the digest
      file when two more packages could write that file at once. */
  predicate NoCollisions(pkgs: set<Pkg>)
  {
    && INFO !in pkgs
    && (forall p | p in pkgs :: ObjectName(p) !in pkgs && PkgLock(p) !in pkgs)
    && (INFO_LOCK in pkgs ==> |pkgs| <= 2)
  }

  // ----- what the cache directory holds for one package -----

  datatype Slot = Slot(obj: Option<Content>, hasData: bool, entry: Option<string>)

  function SlotOf(s: State, p: Pkg): Slot
    requires p in s.sources
  {
    var path, info := RealPathOf(p, s.sources[p]), InfoOf(s.files);
    Slot(if ObjectName(p) in s.files then Some(s.files[ObjectName(p)]) else None,
         HasData(s.files, p),
         if path in info then Some(info[path]) else None)
  }

  /** What a step does to the slot of its own package. */
  function SlotAfter(slot: Slot, pc: Pc, text: string): Slot
  {
    match pc
    case Missed => slot.(obj := None)
    case Cleaned => slot.(obj := Some(Object(text)))
    case InfoCopied(d, _) => slot.(entry := Some(d))
    case DataLocked => slot.(hasData := true)
    case _ => slot
  }

  /** The object was assembled from text with the digest of the sources. */
  predicate Fresh(cfg: Config, src: Source, slot: Slot)
  {
    slot.obj.Some? && slot.obj.value.Object? && cfg.digest(slot.obj.value.text) == cfg.digest(src.Compiled())
  }

  predicate RecordedNow(cfg: Config, src: Source, slot: Slot)
  {
    slot.entry == Some(cfg.digest(src.Digested()))
  }

  /** A process that looks the package up now finds everything it needs. */
  predicate CachedSlot(cfg: Config, src: Source, slot: Slot)
  {
    Fresh(cfg, src, slot) && RecordedNow(cfg, src, slot) && slot.hasData
  }

  /** The recorded digest is that of the text the object was assembled from. */
  predicate RecordFits(cfg: Config, slot: Slot)
  {
    slot.obj.Some? ==>
      slot.obj.value.Object? && (slot.entry.Some? ==> slot.entry.value == cfg.digest(slot.obj.value.text))
  }

  /** What a process knows at each point, while it holds the lock of the package. */
  predicate Knows(cfg: Config, src: Source, slot: Slot, pc: Pc)
  {
    var now := cfg.digest(src.Digested());
    match pc
    case InfoSeen(d) => slot.entry == Some(d)
    case Current => RecordedNow(cfg, src, slot)
    case DataLoaded => RecordedNow(cfg, src, slot) && slot.hasData
    case Missed => !CachedSlot(cfg, src, slot)
    case Cleaned => slot.obj == None
    case Emitted => Fresh(cfg, src, slot)
    case Digested(d) => Fresh(cfg, src, slot) && d == now
    case InfoLocked(d) => Fresh(cfg, src, slot) && d == now
    case InfoCopied(d, _) => Fresh(cfg, src, slot) && d == now
    case InfoWritten => Fresh(cfg, src, slot) && RecordedNow(cfg, src, slot)
    case InfoReleased => Fresh(cfg, src, slot) && RecordedNow(cfg, src, slot)
    case DataLocked => Fresh(cfg, src, slot) && RecordedNow(cfg, src, slot)
    case DataWritten => CachedSlot(cfg, src, slot)
    case Finished => CachedSlot(cfg, src, slot)
    case _ => true
  }

  // ----- the invariant -----

  predicate Cached(cfg: Config, s: State, p: Pkg)
  {
    p in s.sources && CachedSlot(cfg, s.sources[p], SlotOf(s, p))
  }

  /** The process compiles the sources as they are. */
  predicate Compiles(s: State, proc: Proc, p: Pkg)
  {
    p in s.sources && p in proc.program && proc.program[p] == s.sources[p].Compiled()
  }

  /** A working process holds the lock of its package and knows where it stands. */
  predicate WorkOk(cfg: Config, s: State, pid: Pid, proc: Proc)
  {
    proc.pc.Ready? ||
      (proc.todo != [] && proc.todo[0] in s.sources
       && PkgLock(proc.todo[0]) in s.locks && s.locks[PkgLock(proc.todo[0])] == pid
       && Knows(cfg, s.sources[proc.todo[0]], SlotOf(s, proc.todo[0]), proc.pc))
  }

  predicate ProcOk(cfg: Config, s: State, pid: Pid, proc: Proc)
  {
    && (forall p | p in proc.todo :: Compiles(s, proc, p))
    && (forall p | p in proc.libs :: Compiles(s, proc, p) && Cached(cfg, s, p))
    && WorkOk(cfg, s, pid, proc)
    && (proc.pc.InfoCopied? ==> proc.pc.copy == InfoOf(s.files))
  }

  /** A package found by whoever looks it up, and nobody is about to change that. */
  ghost predicate Done(cfg: Config, s: State, p: Pkg)
  {
    Cached(cfg, s, p) && forall q | At(s, q, p) :: !s.procs[q].pc.Building()
  }

  /** The holder of the info lock has it under its name, or the file was replaced by the finished data file
      of the package of that name. */
  ghost predicate HoldsInfoLock(cfg: Config, s: State, pid: Pid)
  {
    || (INFO_LOCK in s.locks && s.locks[INFO_LOCK] == pid)
    || (!At(s, pid, INFO_LOCK) && Done(cfg, s, INFO_LOCK))
  }

  /** Outside a rebuild the record of a package agrees with its object. */
  predicate RecordOk(cfg: Config, s: State, p: Pkg)
    requires p in s.sources
  {
    || RecordFits(cfg, SlotOf(s, p))
    || (PkgLock(p) in s.locks && At(s, s.locks[PkgLock(p)], p) && s.procs[s.locks[PkgLock(p)]].pc.Rebuilding())
  }

  ghost predicate SourcesOk(cfg: Config, s: State)
  {
    NoCollisions(s.sources.Keys) && forall p | p in s.sources :: Steady(cfg, p) && cfg.Allowed(p, s.sources[p])
  }

  ghost predicate Inv(cfg: Config, s: State)
  {
    && SourcesOk(cfg, s)
    && (forall pid | pid in s.procs :: ProcOk(cfg, s, pid, s.procs[pid]))
    && (forall pid | pid in s.procs && s.procs[pid].pc.HoldsInfo() :: HoldsInfoLock(cfg, s, pid))
    && (forall p | p in s.sources :: RecordOk(cfg, s, p))
  }

  lemma InitialInv(cfg: Config, s: State)
    requires Initial(cfg, s) && SourcesOk(cfg, s)
    ensures Inv(cfg, s)
  {
  }

  /** A steady package is under the root, and the cache digests what the loader compiles. */
  lemma SteadySource(cfg: Config, p: Pkg, src: Source)
    requires Steady(cfg, p) && cfg.Allowed(p, src)
    ensures src.Inside() && src.Checked() && src.Digested() == src.Compiled()
  {
    if src.dir.Some? && !SkipsSome(src.dir.value) { NothingSkipped(src.dir.value); }
  }

  lemma {:induction false} NothingSkipped(files: seq<KFile>)
    requires !SkipsSome(files)
    ensures LoadedFiles(files) == files
    decreases |files|
  {
    if files != [] {
      assert !files[0].Skipped();
      forall i | 0 <= i < |files[1..]| ensures !files[1..][i].Skipped() { assert !files[i + 1].Skipped(); }
      NothingSkipped(files[1..]);
    }
  }

  lemma SteadyPath(cfg: Config, p: Pkg, a: Source, b: Source)
    requires Steady(cfg, p) && cfg.Allowed(p, a) && cfg.Allowed(p, b)
    ensures RealPathOf(p, a) == RealPathOf(p, b)
  {
  }

  // ----- one step: the slots -----

  predicate Same<K, V(==)>(m: map<K, V>, m': map<K, V>, k: K)
  {
    (k in m <==> k in m') && (k in m ==> m[k] == m'[k])
  }

  /** Two states agree on the slot of a package when they agree on its files and its entry. */
  lemma SameSlot(s: State, s': State, k: Pkg)
    requires k in s.sources && s'.sources == s.sources
    requires Same(s.files, s'.files, ObjectName(k)) && (HasData(s'.files, k) <==> HasData(s.files, k))
    requires Same(InfoOf(s.files), InfoOf(s'.files), RealPathOf(k, s.sources[k]))
    ensures SlotOf(s', k) == SlotOf(s, k)
  {
  }

  lemma SlotElsewhere(cfg: Config, s: State, pid: Pid, proc: Proc, p: Pkg, k: Pkg)
    requires CanStep(cfg, s, pid, proc, p) && k in s.sources && k != p && NoCollisions(s.sources.Keys)
    requires proc.pc.InfoCopied? ==> proc.pc.copy == InfoOf(s.files)
    ensures SlotOf(After(cfg, s, pid, proc, p), k) == SlotOf(s, k)
  {
    AfterFiles(cfg, s, pid, proc, p);
    assert INFO != k && INFO != p && ObjectName(k) != p && ObjectName(p) != k;
    var s' := After(cfg, s, pid, proc, p);
    hide CanStep, After, LocksAfter, NoCollisions;
    FilesElsewhere(s, s', proc, p, k);
    SameSlot(s, s', k);
  }

  lemma FilesElsewhere(s: State, s': State, proc: Proc, p: Pkg, k: Pkg)
    requires p in s.sources && p in proc.program && k in s.sources && k != p && INFO != k && INFO != p
    requires ObjectName(k) != p && ObjectName(p) != k && s'.files == FilesAfter(s, proc, p)
    requires proc.pc.InfoCopied? ==> proc.pc.copy == InfoOf(s.files)
    ensures Same(s.files, s'.files, ObjectName(k)) && (HasData(s'.files, k) <==> HasData(s.files, k))
    ensures Same(InfoOf(s.files), InfoOf(s'.files), RealPathOf(k, s.sources[k]))
  {
    NamesApart(p, k);
    NamesApart(k, p);
    hide ObjectName, PkgLock, DataLock;
    if LockTaken(proc.pc, p).Some? {
      var name := LockTaken(proc.pc, p).value;
      assert name != ObjectName(k) && name != INFO;
      hide LockTaken;
    }
  }

  lemma SlotHere(cfg: Config, s: State, pid: Pid, proc: Proc, p: Pkg)
    requires CanStep(cfg, s, pid, proc, p) && NoCollisions(s.sources.Keys)
    ensures SlotOf(After(cfg, s, pid, proc, p), p) == SlotAfter(SlotOf(s, p), proc.pc, proc.program[p])
  {
    AfterFiles(cfg, s, pid, proc, p);
    assert INFO != p;
    var s' := After(cfg, s, pid, proc, p);
    hide CanStep, After, LocksAfter, NoCollisions;
    if LockTaken(proc.pc, p).Some? { OpeningKeepsSlot(s, s', p, LockTaken(proc.pc, p).value); }
    else { WritingChangesSlot(s, s', proc, p); }
  }

  lemma OpeningKeepsSlot(s: State, s': State, p: Pkg, name: string)
    requires p in s.sources && s'.sources == s.sources && s'.files == Opened(s.files, name)
    requires name == PkgLock(p) || name == INFO_LOCK || name == DataLock(p)
    ensures SlotOf(s', p) == SlotOf(s, p)
  {
    NamesApart(p, p);
    hide ObjectName, PkgLock, DataLock;
    SameSlot(s, s', p);
  }

  lemma WritingChangesSlot(s: State, s': State, proc: Proc, p: Pkg)
    requires p in s.sources && p in proc.program && p != INFO && LockTaken(proc.pc, p).None?
    requires s'.sources == s.sources && s'.files == FilesAfter(s, proc, p)
    ensures SlotOf(s', p) == SlotAfter(SlotOf(s, p), proc.pc, proc.program[p])
  {
    NamesApart(p, p);
    hide ObjectName, PkgLock, DataLock;
  }

  /** What is known stays known through a step: this is the whole argument about one package, on its slot
      alone. */
  lemma KnowsNext(cfg: Config, s: State, p: Pkg, pc: Pc, text: string)
    requires p in s.sources && NextPc(cfg, s, pc, p).Some? && text == s.sources[p].Compiled()
    requires s.sources[p].Inside() && s.sources[p].Checked() && s.sources[p].Digested() == s.sources[p].Compiled()
    requires Knows(cfg, s.sources[p], SlotOf(s, p), pc)
    requires RecordFits(cfg, SlotOf(s, p)) || pc.Rebuilding()
    ensures var slot' := SlotAfter(SlotOf(s, p), pc, text);
      var pc' := NextPc(cfg, s, pc, p).value;
      && Knows(cfg, s.sources[p], slot', pc') && (RecordFits(cfg, slot') || pc'.Rebuilding())
  {
    hide ObjectName, PkgLock, DataLock;
  }

  /** Who finds the package done never starts to build it. */
  lemma DoneIsHit(cfg: Config, s: State, p: Pkg, pc: Pc)
    requires p in s.sources && NextPc(cfg, s, pc, p).Some? && CachedSlot(cfg, s.sources[p], SlotOf(s, p))
    requires s.sources[p].Checked() && Knows(cfg, s.sources[p], SlotOf(s, p), pc) && (pc.Ready? || !pc.Building())
    ensures var pc' := NextPc(cfg, s, pc, p).value; !pc'.Building() || pc.Finished?
  {
  }

  // ----- one step: the locks and the processes -----

  /** A process and package that take a step in a state that satisfies the invariant. */
  ghost predicate Steps(cfg: Config, s: State, pid: Pid, proc: Proc, p: Pkg)
  {
    Inv(cfg, s) && CanStep(cfg, s, pid, proc, p)
  }

  lemma OwnFacts(cfg: Config, s: State, pid: Pid, proc: Proc, p: Pkg)
    requires Steps(cfg, s, pid, proc, p)
    ensures NoCollisions(s.sources.Keys) && Compiles(s, proc, p) && ProcOk(cfg, s, pid, proc)
    ensures s.sources[p].Inside() && s.sources[p].Checked() && s.sources[p].Digested() == s.sources[p].Compiled()
    ensures Knows(cfg, s.sources[p], SlotOf(s, p), proc.pc)
    ensures RecordFits(cfg, SlotOf(s, p)) || proc.pc.Rebuilding()
    ensures !proc.pc.Ready? ==> PkgLock(p) in s.locks && s.locks[PkgLock(p)] == pid
    ensures proc.pc.Ready? ==> PkgLock(p) !in s.locks
    ensures proc.pc.InfoCopied? ==> proc.pc.copy == InfoOf(s.files)
  {
    hide SlotOf, RecordFits, NoCollisions;
    assert ProcOk(cfg, s, pid, proc) && p in proc.todo && RecordOk(cfg, s, p);
    SteadySource(cfg, p, s.sources[p]);
  }

  /** Two processes are never at one package. */
  lemma OtherIsElsewhere(cfg: Config, s: State, pid: Pid, proc: Proc, p: Pkg, q: Pid)
    requires Steps(cfg, s, pid, proc, p) && q != pid && Working(s, q)
    ensures var k := s.procs[q].todo[0];
      k != p && k in s.sources && PkgLock(k) in s.locks && s.locks[PkgLock(k)] == q
  {
    OwnFacts(cfg, s, pid, proc, p);
    hide Knows, SlotOf, NextPc, SourcesOk, RecordOk;
    assert ProcOk(cfg, s, q, s.procs[q]);
  }

  /** A step leaves the package lock of another package alone. */
  lemma LockElsewhere(cfg: Config, s: State, pid: Pid, proc: Proc, p: Pkg, k: Pkg)
    requires CanStep(cfg, s, pid, proc, p) && k in s.sources && k != p && NoCollisions(s.sources.Keys)
    ensures Same(s.locks, After(cfg, s, pid, proc, p).locks, PkgLock(k))
  {
    AfterFiles(cfg, s, pid, proc, p);
    NamesApart(p, k);
    NamesApart(k, p);
    assert PkgLock(k) != p && ObjectName(k) != p;
    hide ObjectName, PkgLock, DataLock, CanStep, After, FilesAfter;
  }

  lemma LockHere(cfg: Config, s: State, pid: Pid, proc: Proc, p: Pkg)
    requires CanStep(cfg, s, pid, proc, p)
    requires !proc.pc.Ready? ==> PkgLock(p) in s.locks && s.locks[PkgLock(p)] == pid
    ensures var s' := After(cfg, s, pid, proc, p);
      !proc.pc.Finished? ==> PkgLock(p) in s'.locks && s'.locks[PkgLock(p)] == pid
  {
    AfterFiles(cfg, s, pid, proc, p);
    NamesApart(p, p);
    hide ObjectName, PkgLock, DataLock, CanStep, After, FilesAfter;
  }

  /** Only the step that writes the digest file changes what it says. */
  lemma InfoElsewhere(cfg: Config, s: State, pid: Pid, proc: Proc, p: Pkg)
    requires CanStep(cfg, s, pid, proc, p) && p != INFO && !proc.pc.InfoCopied?
    ensures InfoOf(After(cfg, s, pid, proc, p).files) == InfoOf(s.files)
  {
    AfterFiles(cfg, s, pid, proc, p);
    NamesApart(p, p);
    hide ObjectName, PkgLock, DataLock, CanStep, After, LocksAfter;
  }

  /** Only the rename onto its name takes the info lock from its holder. */
  lemma InfoLockElsewhere(cfg: Config, s: State, pid: Pid, proc: Proc, p: Pkg)
    requires CanStep(cfg, s, pid, proc, p) && p != INFO && !proc.pc.Digested? && !proc.pc.InfoWritten?
    ensures Same(s.locks, After(cfg, s, pid, proc, p).locks, INFO_LOCK) || (p == INFO_LOCK && proc.pc.DataLocked?)
  {
    AfterFiles(cfg, s, pid, proc, p);
    NamesApart(p, p);
    hide ObjectName, PkgLock, DataLock, CanStep, After, FilesAfter;
  }

  lemma ThreeAreTooMany(pkgs: set<Pkg>, a: Pkg, b: Pkg, c: Pkg)
    requires a in pkgs && b in pkgs && c in pkgs && a != b && a != c && b != c
    ensures |pkgs| > 2
  {
    var rest := pkgs - {a, b, c};
    assert pkgs == rest + {a, b, c} && |{a, b, c}| == 3;
  }

  /** While one process takes or holds the info lock no other one does. */
  lemma OnlyOneWrites(cfg: Config, s: State, pid: Pid, proc: Proc, p: Pkg, q: Pid)
    requires Steps(cfg, s, pid, proc, p) && q != pid && q in s.procs
    requires proc.pc.Digested? || proc.pc.HoldsInfo()
    ensures !s.procs[q].pc.HoldsInfo()
  {
    if !s.procs[q].pc.Ready? {
      WorksAt(cfg, s, q);
      OtherIsElsewhere(cfg, s, pid, proc, p, q);
      assert s.procs[q].pc.HoldsInfo() ==> HoldsInfoLock(cfg, s, q);
      assert proc.pc.HoldsInfo() ==> HoldsInfoLock(cfg, s, pid);
      assert proc.pc.Digested? ==> INFO_LOCK !in s.locks;
      assert NoCollisions(s.sources.Keys) && At(s, pid, p);
      hide Inv, CanStep;
      NotBoth(cfg, s, pid, p, q, s.procs[q].todo[0]);
    }
  }

  /** Of two processes at different packages only one can be on the way from the digest to the record. */
  lemma NotBoth(cfg: Config, s: State, pid: Pid, p: Pkg, q: Pid, k: Pkg)
    requires NoCollisions(s.sources.Keys) && p in s.sources && k in s.sources && p != k && q != pid
    requires At(s, pid, p) && At(s, q, k) && (s.procs[q].pc.HoldsInfo() ==> HoldsInfoLock(cfg, s, q))
    requires s.procs[pid].pc.Digested? || s.procs[pid].pc.HoldsInfo()
    requires if s.procs[pid].pc.HoldsInfo() then HoldsInfoLock(cfg, s, pid) else INFO_LOCK !in s.locks
    ensures !s.procs[q].pc.HoldsInfo()
  {
    if s.procs[q].pc.HoldsInfo() {
      hide Cached, ObjectName, PkgLock;
      assert Done(cfg, s, INFO_LOCK);
      CachedHasSource(cfg, s, INFO_LOCK);
      ThreeAreTooMany(s.sources.Keys, INFO_LOCK, p, k);
    }
  }

  lemma WorksAt(cfg: Config, s: State, q: Pid)
    requires Inv(cfg, s) && q in s.procs && !s.procs[q].pc.Ready?
    ensures Working(s, q)
  {
    assert ProcOk(cfg, s, q, s.procs[q]);
  }

  lemma CachedHasSource(cfg: Config, s: State, p: Pkg)
    requires Done(cfg, s, p)
    ensures p in s.sources
  {
  }

  // ----- one step keeps the invariant -----

  /** A package that is fully cached stays so while any processes run. */
  lemma CachedStays(cfg: Config, s: State, pid: Pid, proc: Proc, p: Pkg, k: Pkg)
    requires Steps(cfg, s, pid, proc, p) && Cached(cfg, s, k)
    ensures Cached(cfg, After(cfg, s, pid, proc, p), k)
  {
    OwnFacts(cfg, s, pid, proc, p);
    hide Inv, SlotOf, NoCollisions, NextPc, ProcOk;
    if k != p { SlotElsewhere(cfg, s, pid, proc, p, k); } else { SlotHere(cfg, s, pid, proc, p); }
  }

  lemma DoneStays(cfg: Config, s: State, pid: Pid, proc: Proc, p: Pkg, k: Pkg)
    requires Steps(cfg, s, pid, proc, p) && Done(cfg, s, k)
    ensures Done(cfg, After(cfg, s, pid, proc, p), k)
  {
    OwnFacts(cfg, s, pid, proc, p);
    CachedStays(cfg, s, pid, proc, p, k);
    var s' := After(cfg, s, pid, proc, p);
    if k == p {
      assert !proc.pc.Ready? ==> At(s, pid, p);
      DoneIsHit(cfg, s, p, proc.pc);
    }
    hide Inv, SlotOf, Cached, NextPc, ProcOk, Knows, FilesAfter, LocksAfter;
    forall q | At(s', q, k) ensures !s'.procs[q].pc.Building() {
      assert q != pid ==> At(s, q, k);
    }
  }

  lemma BeforeHolding(cfg: Config, s: State, pc: Pc, p: Pkg)
    requires p in s.sources && NextPc(cfg, s, pc, p).Some? && NextPc(cfg, s, pc, p).value.HoldsInfo()
    ensures pc.Digested? || (pc.HoldsInfo() && !pc.InfoWritten?)
  {
  }

  lemma InfoLockStays(cfg: Config, s: State, pid: Pid, proc: Proc, p: Pkg, q: Pid)
    requires Steps(cfg, s, pid, proc, p) && q in After(cfg, s, pid, proc, p).procs
    requires After(cfg, s, pid, proc, p).procs[q].pc.HoldsInfo()
    ensures HoldsInfoLock(cfg, After(cfg, s, pid, proc, p), q)
  {
    AfterProcs(cfg, s, pid, proc, p);
    assert p != INFO;
    if q == pid { BeforeHolding(cfg, s, proc.pc, p); }
    hide Inv, NextPc, Done, SlotOf, Knows;
    if q == pid {
      if proc.pc.Digested? { TakesInfoLock(cfg, s, pid, proc, p); } else { OwnInfoLockStays(cfg, s, pid, proc, p); }
    } else {
      hide After;
      if proc.pc.Digested? || proc.pc.HoldsInfo() { OnlyOneWrites(cfg, s, pid, proc, p, q); }
      OtherInfoLockStays(cfg, s, pid, proc, p, q);
    }
  }

  lemma TakesInfoLock(cfg: Config, s: State, pid: Pid, proc: Proc, p: Pkg)
    requires CanStep(cfg, s, pid, proc, p) && proc.pc.Digested?
    ensures HoldsInfoLock(cfg, After(cfg, s, pid, proc, p), pid)
  {
    AfterFiles(cfg, s, pid, proc, p);
    hide Done, After, NextPc;
  }

  lemma OwnInfoLockStays(cfg: Config, s: State, pid: Pid, proc: Proc, p: Pkg)
    requires Steps(cfg, s, pid, proc, p) && p != INFO && proc.pc.HoldsInfo() && !proc.pc.InfoWritten?
    ensures HoldsInfoLock(cfg, After(cfg, s, pid, proc, p), pid)
  {
    AfterProcs(cfg, s, pid, proc, p);
    InfoLockElsewhere(cfg, s, pid, proc, p);
    assert HoldsInfoLock(cfg, s, pid);
    if Done(cfg, s, INFO_LOCK) { DoneStays(cfg, s, pid, proc, p, INFO_LOCK); }
    hide Inv, NextPc, Done, After;
  }

  lemma OtherInfoLockStays(cfg: Config, s: State, pid: Pid, proc: Proc, p: Pkg, q: Pid)
    requires Steps(cfg, s, pid, proc, p) && p != INFO && q != pid && q in s.procs && s.procs[q].pc.HoldsInfo()
    requires !proc.pc.Digested? && !proc.pc.InfoWritten?
    ensures HoldsInfoLock(cfg, After(cfg, s, pid, proc, p), q)
  {
    AfterProcs(cfg, s, pid, proc, p);
    InfoLockElsewhere(cfg, s, pid, proc, p);
    WorksAt(cfg, s, q);
    OtherIsElsewhere(cfg, s, pid, proc, p, q);
    assert HoldsInfoLock(cfg, s, q);
    if Done(cfg, s, INFO_LOCK) { DoneStays(cfg, s, pid, proc, p, INFO_LOCK); }
    if p == INFO_LOCK && proc.pc.DataLocked? { BecomesDone(cfg, s, pid, proc, p); }
    hide Inv, NextPc, Done, After;
  }

  /** Writing the data file makes the package one that everybody finds. */
  lemma BecomesDone(cfg: Config, s: State, pid: Pid, proc: Proc, p: Pkg)
    requires Steps(cfg, s, pid, proc, p) && proc.pc.DataLocked?
    ensures Done(cfg, After(cfg, s, pid, proc, p), p)
  {
    OwnFacts(cfg, s, pid, proc, p);
    SlotHere(cfg, s, pid, proc, p);
    KnowsNext(cfg, s, p, proc.pc, proc.program[p]);
    var s' := After(cfg, s, pid, proc, p);
    forall q | At(s', q, p) ensures !s'.procs[q].pc.Building() {
      if q != pid { assert At(s, q, p); OtherIsElsewhere(cfg, s, pid, proc, p, q); }
    }
  }

  lemma OtherStaysOk(cfg: Config, s: State, pid: Pid, proc: Proc, p: Pkg, q: Pid)
    requires Steps(cfg, s, pid, proc, p) && q in s.procs && q != pid
    ensures ProcOk(cfg, After(cfg, s, pid, proc, p), q, s.procs[q])
  {
    OwnFacts(cfg, s, pid, proc, p);
    assert ProcOk(cfg, s, q, s.procs[q]);
    var s' := After(cfg, s, pid, proc, p);
    if !s.procs[q].pc.Ready? {
      var k := s.procs[q].todo[0];
      OtherIsElsewhere(cfg, s, pid, proc, p, q);
      SlotElsewhere(cfg, s, pid, proc, p, k);
      LockElsewhere(cfg, s, pid, proc, p, k);
    }
    if s.procs[q].pc.InfoCopied? {
      if proc.pc.InfoCopied? { OnlyOneWrites(cfg, s, pid, proc, p, q); }
      InfoElsewhere(cfg, s, pid, proc, p);
    }
    forall k | k in s.procs[q].libs ensures Cached(cfg, s', k) { CachedStays(cfg, s, pid, proc, p, k); }
    hide Inv, SlotOf, Knows, NextPc, Cached, FilesAfter, LocksAfter;
  }

  lemma OwnStaysOk(cfg: Config, s: State, pid: Pid, proc: Proc, p: Pkg)
    requires Steps(cfg, s, pid, proc, p)
    ensures var s' := After(cfg, s, pid, proc, p); ProcOk(cfg, s', pid, s'.procs[pid])
  {
    AfterProcs(cfg, s, pid, proc, p);
    OwnFacts(cfg, s, pid, proc, p);
    OwnLibsStay(cfg, s, pid, proc, p);
    OwnWorkStays(cfg, s, pid, proc, p);
    OwnCopyStays(cfg, s, pid, proc, p);
    assert forall k | k in proc.todo[1..] :: k in proc.todo;
    assert ProcOk(cfg, s, pid, proc);
    hide Inv, SlotOf, Knows, Cached, After, CanStep, WorkOk;
  }

  lemma OwnWorkStays(cfg: Config, s: State, pid: Pid, proc: Proc, p: Pkg)
    requires Steps(cfg, s, pid, proc, p)
    ensures var s' := After(cfg, s, pid, proc, p); WorkOk(cfg, s', pid, s'.procs[pid])
  {
    AfterProcs(cfg, s, pid, proc, p);
    OwnFacts(cfg, s, pid, proc, p);
    SlotHere(cfg, s, pid, proc, p);
    KnowsNext(cfg, s, p, proc.pc, proc.program[p]);
    LockHere(cfg, s, pid, proc, p);
    hide Inv, SlotOf, Knows, After, NextPc, ProcOk;
  }

  lemma OwnCopyStays(cfg: Config, s: State, pid: Pid, proc: Proc, p: Pkg)
    requires Steps(cfg, s, pid, proc, p) && p != INFO
    ensures var s' := After(cfg, s, pid, proc, p);
      s'.procs[pid].pc.InfoCopied? ==> s'.procs[pid].pc.copy == InfoOf(s'.files)
  {
    AfterProcs(cfg, s, pid, proc, p);
    if !proc.pc.InfoCopied? { InfoElsewhere(cfg, s, pid, proc, p); }
    hide Inv, After;
  }

  lemma OwnLibsStay(cfg: Config, s: State, pid: Pid, proc: Proc, p: Pkg)
    requires Steps(cfg, s, pid, proc, p)
    ensures var s' := After(cfg, s, pid, proc, p);
      forall k | k in s'.procs[pid].libs :: Compiles(s', s'.procs[pid], k) && Cached(cfg, s', k)
  {
    AfterProcs(cfg, s, pid, proc, p);
    OwnFacts(cfg, s, pid, proc, p);
    var s' := After(cfg, s, pid, proc, p);
    forall k | k in s'.procs[pid].libs ensures Compiles(s', s'.procs[pid], k) && Cached(cfg, s', k) {
      assert k !in proc.libs ==> k == p && Cached(cfg, s, p);
      CachedStays(cfg, s, pid, proc, p, k);
      hide Inv, SlotOf, Cached, After, NextPc;
    }
  }

  lemma RecordStays(cfg: Config, s: State, pid: Pid, proc: Proc, p: Pkg, k: Pkg)
    requires Steps(cfg, s, pid, proc, p) && k in s.sources
    ensures RecordOk(cfg, After(cfg, s, pid, proc, p), k)
  {
    AfterProcs(cfg, s, pid, proc, p);
    OwnFacts(cfg, s, pid, proc, p);
    assert RecordOk(cfg, s, k);
    if k == p {
      SlotHere(cfg, s, pid, proc, p);
      KnowsNext(cfg, s, p, proc.pc, proc.program[p]);
      LockHere(cfg, s, pid, proc, p);
      hide Inv, After, SlotOf, Knows, RecordFits, ProcOk;
    } else {
      SlotElsewhere(cfg, s, pid, proc, p, k);
      LockElsewhere(cfg, s, pid, proc, p, k);
      hide Inv, After, SlotOf, Knows, RecordFits, ProcOk, NextPc;
    }
  }

  lemma StepInv(cfg: Config, s: State, pid: Pid, proc: Proc, p: Pkg)
    requires Inv(cfg, s) && CanStep(cfg, s, pid, proc, p)
    ensures Inv(cfg, After(cfg, s, pid, proc, p))
  {
    var s' := After(cfg, s, pid, proc, p);
    assert s'.sources == s.sources && SourcesOk(cfg, s');
    hide SourcesOk, ProcOk, HoldsInfoLock, RecordOk, NextPc, FilesAfter, LocksAfter;
    forall q | q in s'.procs ensures ProcOk(cfg, s', q, s'.procs[q]) {
      if q == pid { OwnStaysOk(cfg, s, pid, proc, p); } else { OtherStaysOk(cfg, s, pid, proc, p, q); }
    }
    forall q | q in s'.procs && s'.procs[q].pc.HoldsInfo() ensures HoldsInfoLock(cfg, s', q) {
      InfoLockStays(cfg, s, pid, proc, p, q);
    }
    forall k | k in s'.sources ensures RecordOk(cfg, s', k) { RecordStays(cfg, s, pid, proc, p, k); }
  }

  // ----- whole runs -----

  /** A change of the processes that adds or removes none that works. */
  ghost predicate ProcsChanged(s: State, s': State)
  {
    && s' == s.(procs := s'.procs)
    && (forall q | Working(s, q) :: q in s'.procs && s'.procs[q] == s.procs[q])
    && (forall q | q in s'.procs :: (q in s.procs && s'.procs[q] == s.procs[q]) || Begins(s, s'.procs[q]))
  }

  predicate Begins(s: State, proc: Proc)
  {
    proc.pc.Ready? && proc.libs == {} && forall p | p in proc.todo :: Compiles(s, proc, p)
  }

  lemma SameSlots(cfg: Config, s: State, s': State)
    requires s' == s.(procs := s'.procs)
    ensures forall p | p in s.sources :: SlotOf(s', p) == SlotOf(s, p)
    ensures forall p :: Cached(cfg, s', p) <==> Cached(cfg, s, p)
  {
  }

  lemma ProcUnchanged(cfg: Config, s: State, s': State, q: Pid, proc: Proc)
    requires s' == s.(procs := s'.procs) && (ProcOk(cfg, s, q, proc) || Begins(s, proc))
    ensures ProcOk(cfg, s', q, proc)
  {
    SameSlots(cfg, s, s');
    hide SlotOf, Cached, Knows;
  }

  lemma ProcsChange(cfg: Config, s: State, s': State)
    requires Inv(cfg, s) && ProcsChanged(s, s')
    ensures Inv(cfg, s')
  {
    assert SourcesOk(cfg, s');
    hide SourcesOk;
    assert forall q, p | At(s', q, p) :: At(s, q, p);
    forall q | q in s'.procs ensures ProcOk(cfg, s', q, s'.procs[q]) {
      ProcUnchanged(cfg, s, s', q, s'.procs[q]);
    }
    hide ProcOk;
    SameSlots(cfg, s, s');
    hide SlotOf, Cached;
    forall q | q in s'.procs && s'.procs[q].pc.HoldsInfo() ensures HoldsInfoLock(cfg, s', q) {
      assert HoldsInfoLock(cfg, s, q) && (At(s', q, INFO_LOCK) ==> At(s, q, INFO_LOCK));
    }
    forall p | p in s'.sources ensures RecordOk(cfg, s', p) {
      assert RecordOk(cfg, s, p);
      hide HoldsInfoLock;
    }
  }

  /** Without processes any package may change. */
  lemma EditInv(cfg: Config, s: State, p: Pkg, src: Source)
    requires Inv(cfg, s) && Do(cfg, s, Edit(p, src)).Some?
    ensures Inv(cfg, Do(cfg, s, Edit(p, src)).value)
  {
    var s' := Do(cfg, s, Edit(p, src)).value;
    assert s'.sources.Keys == s.sources.Keys;
    SteadyPath(cfg, p, s.sources[p], src);
    forall k | k in s'.sources ensures RecordOk(cfg, s', k) {
      assert RecordOk(cfg, s, k);
      assert SlotOf(s', k) == SlotOf(s, k);
    }
  }

  lemma WorkHasTodo(cfg: Config, s: State, pid: Pid)
    requires Inv(cfg, s) && pid in s.procs && s.procs[pid].todo == []
    ensures s.procs[pid].pc.Ready?
  {
    assert ProcOk(cfg, s, pid, s.procs[pid]);
  }

  lemma StartInv(cfg: Config, s: State, pid: Pid, todo: seq<Pkg>, overrides: map<Pkg, string>)
    requires Inv(cfg, s) && Do(cfg, s, Start(pid, todo, overrides)).Some?
    ensures Inv(cfg, Do(cfg, s, Start(pid, todo, overrides)).value)
  {
    NothingOverridden(cfg, s, overrides);
    hide Inv;
    var s' := Do(cfg, s, Start(pid, todo, overrides)).value;
    assert Begins(s, s'.procs[pid]);
    ProcsChange(cfg, s, s');
  }

  lemma DoInv(cfg: Config, s: State, a: Action)
    requires Inv(cfg, s) && Do(cfg, s, a).Some?
    ensures Inv(cfg, Do(cfg, s, a).value)
  {
    var s' := Do(cfg, s, a).value;
    match a {
      case Advance(pid) => StepInv(cfg, s, pid, s.procs[pid], s.procs[pid].todo[0]);
      case Start(pid, todo, overrides) => StartInv(cfg, s, pid, todo, overrides);
      case Exit(pid) =>
        WorkHasTodo(cfg, s, pid);
        hide Inv;
        ProcsChange(cfg, s, s');
      case Edit(p, src) => EditInv(cfg, s, p, src);
    }
  }

  lemma NothingOverridden(cfg: Config, s: State, overrides: map<Pkg, string>)
    requires SourcesOk(cfg, s) && forall p | p in overrides :: cfg.overridden(p)
    ensures forall p | p in overrides :: p !in s.sources
  {
  }

  lemma {:induction false} RunInv(cfg: Config, s: State, actions: seq<Action>)
    requires Inv(cfg, s) && Run(cfg, s, actions).Some?
    ensures Inv(cfg, Run(cfg, s, actions).value)
    decreases |actions|
  {
    hide Inv, Do;
    if actions != [] {
      DoInv(cfg, s, actions[0]);
      RunInv(cfg, Do(cfg, s, actions[0]).value, actions[1..]);
    }
  }

  lemma InvIsGood(cfg: Config, s: State)
    requires Inv(cfg, s)
    ensures Good(cfg, s)
    ensures forall p | p in s.sources && PkgLock(p) !in s.locks :: RecordFits(cfg, SlotOf(s, p))
  {
    hide SourcesOk, HoldsInfoLock, Knows;
    forall pid, p | pid in s.procs && p in s.procs[pid].libs ensures Usable(cfg, s, s.procs[pid], p) {
      assert ProcOk(cfg, s, pid, s.procs[pid]);
      assert Compiles(s, s.procs[pid], p) && Cached(cfg, s, p);
    }
    hide ProcOk;
    forall p | p in s.sources && PkgLock(p) !in s.locks ensures RecordFits(cfg, SlotOf(s, p)) {
      assert RecordOk(cfg, s, p);
    }
  }

  /** Steady packages without collisions: every reachable state is good, and whenever a package's lock is
      free its recorded digest is the digest of what its object was assembled from. */
  lemma SafeRuns(cfg: Config, s: State, actions: seq<Action>)
    requires Initial(cfg, s) && Run(cfg, s, actions).Some?
    requires NoCollisions(s.sources.Keys) && forall p | p in s.sources :: Steady(cfg, p)
    ensures var s' := Run(cfg, s, actions).value;
      && Good(cfg, s')
      && forall p | p in s'.sources && PkgLock(p) !in s'.locks :: RecordFits(cfg, SlotOf(s', p))
  {
    InitialInv(cfg, s);
    RunInv(cfg, s, actions);
    InvIsGood(cfg, Run(cfg, s, actions).value);
  }
}
