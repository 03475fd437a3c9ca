/** Exactly when no entry of the digest file is ever lost, in any layouts: what the names of the packages
    have to do with it. kclvm/config/src/cache.rs:81-173. */
module BuildCacheSurvival {
  import opened Wrappers
  import opened BuildCache
  import opened BuildCacheSafety
  import opened BuildCacheRuns
  import opened BuildCacheExact

  /** One action changes at most the entry of one package, which becomes the digest of its sources. */
  ghost predicate EntriesKept(cfg: Config, s: State, s': State)
  {
    || InfoOf(s'.files) == InfoOf(s.files)
    || exists p :: p in s.sources && InfoOf(s'.files) == InfoOf(s.files)[RealPathOf(p, s.sources[p]) := Now(cfg, s, p)]
  }

  /** No action in any run of the packages loses an entry. */
  ghost predicate Survives(cfg: Config, pkgs: set<Pkg>)
  {
    forall s0, s, a :: SurvivesIn(cfg, pkgs, s0, s, a)
  }

  ghost predicate SurvivesIn(cfg: Config, pkgs: set<Pkg>, s0: State, s: State, a: Action)
  {
    Initial(cfg, s0) && s0.sources.Keys == pkgs && Reaches(cfg, s0, s) && Do(cfg, s, a).Some? ==>
      EntriesKept(cfg, s, Do(cfg, s, a).value)
  }

  /** No data file takes the name of the digest file, and none takes the name of its lock when two more
      packages could write it at once. */
  predicate NamesKept(pkgs: set<Pkg>)
  {
    INFO !in pkgs && (INFO_LOCK in pkgs ==> |pkgs| <= 2)
  }

  // ----- what a process carries -----

  predicate Recording(pc: Pc) { pc.Digested? || pc.HoldsInfo() }

  function Carried(pc: Pc): Option<string>
  {
    match pc
    case Digested(d) => Some(d)
    case InfoLocked(d) => Some(d)
    case InfoCopied(d, _) => Some(d)
    case _ => None
  }

  ghost predicate AgreesOff(copy: map<RealPath, string>, info: map<RealPath, string>, path: RealPath)
  {
    forall k | k != path :: Same(copy, info, k)
  }

  /** A process that records a package does so for sources under the root; the digest it carries is that of
      the sources, and its copy of the digest file differs from the file at most in the entry it replaces. */
  ghost predicate CarriesOk(cfg: Config, s: State, pc: Pc, p: Pkg)
    requires p in s.sources
  {
    && (Recording(pc) ==> s.sources[p].Inside())
    && (Carried(pc).Some? ==> Carried(pc).value == Now(cfg, s, p))
    && (pc.InfoCopied? ==> AgreesOff(pc.copy, InfoOf(s.files), RealPathOf(p, s.sources[p])))
  }

  ghost predicate ProcKept(cfg: Config, s: State, proc: Proc)
  {
    && (forall p | p in proc.todo :: p in s.sources && p in proc.program)
    && (proc.pc.Ready? || (proc.todo != [] && CarriesOk(cfg, s, proc.pc, proc.todo[0])))
  }

  // ----- who may write the digest file -----

  /** Where the data file of a package takes the place of the package lock of `info.lock`. */
  const SPECIAL: Pkg := PkgLock(INFO_LOCK)

  predicate OneInside(s: State)
  {
    forall p, q | p in s.sources && q in s.sources && s.sources[p].Inside() && s.sources[q].Inside() :: p == q
  }

  predicate Entry(cfg: Config, s: State, p: Pkg)
    requires p in s.sources
  {
    var path, info := RealPathOf(p, s.sources[p]), InfoOf(s.files);
    path in info && info[path] == Now(cfg, s, p)
  }

  /** A process that looks the package up now finds it. */
  predicate Found(cfg: Config, s: State, p: Pkg)
  {
    p in s.sources && s.sources[p].Inside() && HasData(s.files, p) && ObjectName(p) in s.files && Entry(cfg, s, p)
  }

  /** The points of a process that finds the package. */
  predicate OnHit(cfg: Config, s: State, p: Pkg, pc: Pc)
    requires p in s.sources
  {
    !pc.Building() && (pc.InfoSeen? ==> pc.digest == Now(cfg, s, p))
  }

  ghost predicate Settled(cfg: Config, s: State, p: Pkg)
  {
    Found(cfg, s, p) && forall q | At(s, q, p) :: OnHit(cfg, s, p, s.procs[q].pc)
  }

  /** What a process that rebuilds a package has left behind. */
  predicate Sees(cfg: Config, s: State, p: Pkg, pc: Pc)
    requires p in s.sources
  {
    && (pc.Building() && !pc.Missed? && !pc.Cleaned? ==> ObjectName(p) in s.files)
    && (pc.InfoWritten? || pc.InfoReleased? || pc.DataLocked? ==> Entry(cfg, s, p))
  }

  ghost predicate HoldsByName(s: State, q: Pid) { INFO_LOCK in s.locks && s.locks[INFO_LOCK] == q }

  /** A working process holds its package lock; a holder of the info lock has it under its name, unless
      `info.lock` was put in its place and is settled. */
  ghost predicate LockedOk(cfg: Config, s: State, q: Pid, p: Pkg)
    requires At(s, q, p) && p in s.sources
  {
    && PkgLock(p) in s.locks && s.locks[PkgLock(p)] == q && Sees(cfg, s, p, s.procs[q].pc)
    && (s.procs[q].pc.HoldsInfo() ==> HoldsByName(s, q) || (p != INFO_LOCK && Settled(cfg, s, INFO_LOCK)))
  }

  ghost predicate AllLocked(cfg: Config, s: State)
  {
    forall q, p | At(s, q, p) :: p in s.sources && s.sources[p].Inside() && LockedOk(cfg, s, q, p)
  }

  /** Only processes at one package write the digest file at a time. */
  ghost predicate OneWriter(cfg: Config, s: State)
  {
    if INFO_LOCK !in s.sources then forall q | q in s.procs && s.procs[q].pc.HoldsInfo() :: HoldsByName(s, q)
    else OneInside(s) || Settled(cfg, s, SPECIAL) || AllLocked(cfg, s)
  }

  ghost predicate Kept(cfg: Config, s: State)
  {
    NamesKept(s.sources.Keys) && (forall q | q in s.procs :: ProcKept(cfg, s, s.procs[q])) && OneWriter(cfg, s)
  }

  lemma InitialKept(cfg: Config, s: State)
    requires Initial(cfg, s) && NamesKept(s.sources.Keys)
    ensures Kept(cfg, s)
  {
  }

  // ----- one step: what one process does -----

  /** A process and package that take a step. */
  ghost predicate Steps(cfg: Config, s: State, pid: Pid, proc: Proc, p: Pkg)
  {
    CanStep(cfg, s, pid, proc, p) && Kept(cfg, s)
  }

  /** The digest file changes only where the step writes it. */
  lemma InfoAfter(cfg: Config, s: State, pid: Pid, proc: Proc, p: Pkg)
    requires CanStep(cfg, s, pid, proc, p) && p != INFO
    ensures InfoOf(After(cfg, s, pid, proc, p).files) ==
      if proc.pc.InfoCopied? then proc.pc.copy[RealPathOf(p, s.sources[p]) := proc.pc.digest] else InfoOf(s.files)
  {
    AfterFiles(cfg, s, pid, proc, p);
    if !proc.pc.InfoCopied? { InfoElsewhere(cfg, s, pid, proc, p); }
    hide NextPc, LocksAfter, ObjectName, PkgLock, DataLock;
  }

  /** With what its process carries, a write changes no entry but its own. */
  lemma InfoChanges(cfg: Config, s: State, pid: Pid, proc: Proc, p: Pkg)
    requires Steps(cfg, s, pid, proc, p)
    ensures p != INFO && CarriesOk(cfg, s, proc.pc, p)
    ensures var info' := InfoOf(After(cfg, s, pid, proc, p).files); var path := RealPathOf(p, s.sources[p]);
      info' == if proc.pc.InfoCopied? then InfoOf(s.files)[path := Now(cfg, s, p)] else InfoOf(s.files)
  {
    assert ProcKept(cfg, s, proc);
    InfoAfter(cfg, s, pid, proc, p);
    hide InfoOf, NextPc, After, OneWriter, Now;
    if proc.pc.InfoCopied? {
      AgreeingWrite(proc.pc.copy, InfoOf(s.files), RealPathOf(p, s.sources[p]), proc.pc.digest);
    }
  }

  lemma AgreeingWrite(copy: map<RealPath, string>, info: map<RealPath, string>, path: RealPath, d: string)
    requires AgreesOff(copy, info, path)
    ensures copy[path := d] == info[path := d]
  {
    var m, m' := copy[path := d], info[path := d];
    forall k: RealPath ensures Same(m, m', k) { assert k != path ==> Same(copy, info, k); }
    forall k: RealPath ensures k in m <==> k in m' { assert Same(m, m', k); }
    forall k | k in m ensures m[k] == m'[k] { assert Same(m, m', k); }
  }

  lemma EntryStays(cfg: Config, s: State, pid: Pid, proc: Proc, p: Pkg, k: Pkg)
    requires Steps(cfg, s, pid, proc, p) && k in s.sources && Entry(cfg, s, k)
    ensures After(cfg, s, pid, proc, p).sources == s.sources && Entry(cfg, After(cfg, s, pid, proc, p), k)
  {
    InfoChanges(cfg, s, pid, proc, p);
    AfterFiles(cfg, s, pid, proc, p);
    hide InfoOf, CanStep, After, Kept, CarriesOk;
  }

  lemma CarriesNext(cfg: Config, s: State, pid: Pid, proc: Proc, p: Pkg)
    requires Steps(cfg, s, pid, proc, p)
    ensures var s' := After(cfg, s, pid, proc, p); ProcKept(cfg, s', s'.procs[pid])
  {
    InfoChanges(cfg, s, pid, proc, p);
    AfterProcs(cfg, s, pid, proc, p);
    assert ProcKept(cfg, s, proc);
    assert forall k | k in proc.todo[1..] :: k in proc.todo;
    CarriesNextPc(cfg, s, proc.pc, p);
    hide InfoOf, After, Kept, AgreesOff, CanStep;
  }

  lemma CarriesNextPc(cfg: Config, s: State, pc: Pc, p: Pkg)
    requires p in s.sources && CarriesOk(cfg, s, pc, p) && NextPc(cfg, s, pc, p).Some?
    ensures CarriesOk(cfg, s, NextPc(cfg, s, pc, p).value, p)
    ensures pc.InfoCopied? ==> NextPc(cfg, s, pc, p).value == InfoWritten
  {
    AgreesWithSelf(InfoOf(s.files), RealPathOf(p, s.sources[p]));
    hide InfoOf, AgreesOff, PkgLock, DataLock;
  }

  lemma AgreesWithSelf(info: map<RealPath, string>, path: RealPath)
    ensures AgreesOff(info, info, path)
  {
  }

  /** Another process's copy agrees with the file off its own entry when the writer is at its package. */
  lemma OtherCarries(cfg: Config, s: State, pid: Pid, proc: Proc, p: Pkg, q: Pid)
    requires Steps(cfg, s, pid, proc, p) && q in s.procs && q != pid
    requires proc.pc.InfoCopied? && s.procs[q].pc.InfoCopied? ==> At(s, q, p)
    ensures ProcKept(cfg, After(cfg, s, pid, proc, p), s.procs[q])
  {
    InfoChanges(cfg, s, pid, proc, p);
    AfterFiles(cfg, s, pid, proc, p);
    assert ProcKept(cfg, s, s.procs[q]);
    if s.procs[q].pc.InfoCopied? && proc.pc.InfoCopied? {
      AgreesAfterWrite(s.procs[q].pc.copy, InfoOf(s.files), RealPathOf(p, s.sources[p]), Now(cfg, s, p));
    }
    hide InfoOf, After, Kept, AgreesOff, CanStep;
  }

  lemma AgreesAfterWrite(copy: map<RealPath, string>, info: map<RealPath, string>, path: RealPath, d: string)
    requires AgreesOff(copy, info, path)
    ensures AgreesOff(copy, info[path := d], path)
  {
    var info' := info[path := d];
    forall k: RealPath | k != path ensures Same(copy, info', k) { assert Same(copy, info, k); }
  }

  // ----- one step: who may write -----

  /** The files that make a package found are not taken away by a process at another package, as long as no
      object goes by the name of its data file. */
  lemma FilesStay(cfg: Config, s: State, pid: Pid, proc: Proc, p: Pkg, k: Pkg)
    requires CanStep(cfg, s, pid, proc, p) && p != INFO && k != INFO && p != k
    ensures var s' := After(cfg, s, pid, proc, p);
      && (HasData(s.files, k) && ObjectName(p) != k ==> HasData(s'.files, k))
      && (ObjectName(k) in s.files ==> ObjectName(k) in s'.files)
  {
    AfterFiles(cfg, s, pid, proc, p);
    NamesApart(p, k);
    NamesApart(k, p);
    hide ObjectName, PkgLock, DataLock, CanStep, After, LocksAfter;
  }

  lemma SettledStays(cfg: Config, s: State, pid: Pid, proc: Proc, p: Pkg, k: Pkg)
    requires Steps(cfg, s, pid, proc, p) && Settled(cfg, s, k) && k != INFO
    requires k == INFO_LOCK || k == SPECIAL
    ensures Settled(cfg, After(cfg, s, pid, proc, p), k)
  {
    var s' := After(cfg, s, pid, proc, p);
    AfterProcs(cfg, s, pid, proc, p);
    EntryStays(cfg, s, pid, proc, p, k);
    if p == k {
      assert !proc.pc.Ready? ==> At(s, pid, p);
      FoundFiles(cfg, s, pid, proc, p);
      HitNext(cfg, s, p, proc.pc);
    } else {
      NamesApart(INFO_LOCK, p);
      NamesApart(p, INFO_LOCK);
      FilesStay(cfg, s, pid, proc, p, k);
    }
    hide InfoOf, After, Kept, Entry, NextPc;
    forall q | At(s', q, k) ensures OnHit(cfg, s', k, s'.procs[q].pc) { assert q != pid ==> At(s, q, k); }
  }

  lemma FoundFiles(cfg: Config, s: State, pid: Pid, proc: Proc, p: Pkg)
    requires CanStep(cfg, s, pid, proc, p) && HasData(s.files, p) && ObjectName(p) in s.files && !proc.pc.Building()
    ensures var s' := After(cfg, s, pid, proc, p); HasData(s'.files, p) && ObjectName(p) in s'.files
  {
    AfterFiles(cfg, s, pid, proc, p);
    hide ObjectName, PkgLock, DataLock, CanStep, After, LocksAfter;
  }

  lemma HitNext(cfg: Config, s: State, p: Pkg, pc: Pc)
    requires p in s.sources && NextPc(cfg, s, pc, p).Some? && Found(cfg, s, p)
    requires pc.Ready? || OnHit(cfg, s, p, pc)
    ensures pc.Finished? || OnHit(cfg, s, p, NextPc(cfg, s, pc, p).value)
  {
    hide ObjectName, PkgLock, DataLock;
  }

  lemma ByNameStays(cfg: Config, s: State, pid: Pid, proc: Proc, p: Pkg, q: Pid)
    requires CanStep(cfg, s, pid, proc, p) && p != INFO && p != INFO_LOCK
    requires var s' := After(cfg, s, pid, proc, p); q in s'.procs && s'.procs[q].pc.HoldsInfo()
    requires q in s.procs && s.procs[q].pc.HoldsInfo() ==> HoldsByName(s, q)
    ensures HoldsByName(After(cfg, s, pid, proc, p), q)
  {
    AfterFiles(cfg, s, pid, proc, p);
    AfterProcs(cfg, s, pid, proc, p);
    NextHolds(cfg, s, proc.pc, p);
    NamesApart(p, p);
    assert proc.pc.Digested? ==> INFO_LOCK !in s.locks;
    hide ObjectName, PkgLock, DataLock, CanStep, After, NextPc, FilesAfter;
  }

  // ----- one step with `info.lock` among the packages -----

  lemma TwoPackages(s: State, p: Pkg, q: Pkg)
    requires NamesKept(s.sources.Keys) && INFO_LOCK in s.sources && p in s.sources && q in s.sources
    requires p != INFO_LOCK && q != INFO_LOCK
    ensures p == q
  {
    if p != q { ThreeAreTooMany(s.sources.Keys, INFO_LOCK, p, q); }
  }

  /** While every process holds its locks by name, two of them are at two packages. */
  lemma LockedElsewhere(cfg: Config, s: State, pid: Pid, proc: Proc, p: Pkg, q: Pid, k: Pkg)
    requires CanStep(cfg, s, pid, proc, p) && AllLocked(cfg, s) && q != pid && At(s, q, k)
    ensures k != p
  {
    assert LockedOk(cfg, s, q, k);
    assert !proc.pc.Ready? ==> At(s, pid, p) && LockedOk(cfg, s, pid, p);
    hide ObjectName, PkgLock, DataLock, Sees, FilesAfter, LocksAfter;
  }

  /** Then no process takes or holds the info lock while another one holds it. */
  lemma OneHolder(cfg: Config, s: State, pid: Pid, proc: Proc, p: Pkg, q: Pid, k: Pkg)
    requires Steps(cfg, s, pid, proc, p) && AllLocked(cfg, s) && INFO_LOCK in s.sources
    requires q != pid && At(s, q, k) && Recording(proc.pc)
    ensures !s.procs[q].pc.HoldsInfo()
  {
    LockedElsewhere(cfg, s, pid, proc, p, q, k);
    assert At(s, pid, p) && LockedOk(cfg, s, pid, p) && LockedOk(cfg, s, q, k) && k in s.sources;
    assert proc.pc.Digested? ==> INFO_LOCK !in s.locks;
    if s.procs[q].pc.HoldsInfo() && p != INFO_LOCK && k != INFO_LOCK { TwoPackages(s, p, k); }
    hide CanStep, Found, Sees, Kept, ObjectName, PkgLock;
  }

  lemma SeesNext(cfg: Config, s: State, pid: Pid, proc: Proc, p: Pkg)
    requires Steps(cfg, s, pid, proc, p) && s.sources[p].Inside() && Sees(cfg, s, p, proc.pc)
    ensures var s' := After(cfg, s, pid, proc, p);
      p in s'.sources && (proc.pc.Finished? || Sees(cfg, s', p, NextPc(cfg, s, proc.pc, p).value))
  {
    InfoChanges(cfg, s, pid, proc, p);
    AfterFiles(cfg, s, pid, proc, p);
    if Entry(cfg, s, p) { EntryStays(cfg, s, pid, proc, p, p); }
    NextSees(cfg, s, proc.pc, p);
    if proc.pc.Cleaned? || (ObjectName(p) in s.files && !proc.pc.Missed?) { ObjectStays(cfg, s, pid, proc, p); }
    hide NextPc, After, Kept, InfoOf, FilesAfter, LocksAfter;
  }

  /** Where the next point comes from, in a package under the root. */
  lemma NextSees(cfg: Config, s: State, pc: Pc, p: Pkg)
    requires p in s.sources && NextPc(cfg, s, pc, p).Some? && s.sources[p].Inside()
    ensures var pc' := NextPc(cfg, s, pc, p).value;
      && (pc'.Building() && !pc'.Missed? && !pc'.Cleaned? ==> pc.Building() && !pc.Missed?)
      && (pc'.InfoWritten? ==> pc.InfoCopied?)
      && (pc'.InfoReleased? || pc'.DataLocked? ==> pc.InfoWritten? || pc.InfoReleased?)
      && (pc'.DataWritten? ==> pc.DataLocked?)
  {
    hide InfoOf, PkgLock, DataLock;
  }

  lemma ObjectStays(cfg: Config, s: State, pid: Pid, proc: Proc, p: Pkg)
    requires CanStep(cfg, s, pid, proc, p)
    requires proc.pc.Cleaned? || (ObjectName(p) in s.files && !proc.pc.Missed?)
    ensures ObjectName(p) in After(cfg, s, pid, proc, p).files
  {
    AfterFiles(cfg, s, pid, proc, p);
    hide ObjectName, PkgLock, DataLock, CanStep, After, LocksAfter;
  }

  /** Writing the data file settles the package. */
  lemma BecomesSettled(cfg: Config, s: State, pid: Pid, proc: Proc, p: Pkg)
    requires Steps(cfg, s, pid, proc, p) && AllLocked(cfg, s) && proc.pc.DataLocked?
    ensures Settled(cfg, After(cfg, s, pid, proc, p), p)
  {
    var s' := After(cfg, s, pid, proc, p);
    assert At(s, pid, p) && LockedOk(cfg, s, pid, p) && s.sources[p].Inside();
    AfterProcs(cfg, s, pid, proc, p);
    AfterFiles(cfg, s, pid, proc, p);
    EntryStays(cfg, s, pid, proc, p, p);
    NamesApart(p, p);
    assert HasData(s'.files, p) && ObjectName(p) in s'.files by { hide ObjectName; }
    assert s'.procs[pid].pc == DataWritten;
    hide Kept, Entry, LockedOk, After, NextPc, FilesAfter, LocksAfter;
    forall q | At(s', q, p) ensures OnHit(cfg, s', p, s'.procs[q].pc) {
      if q != pid { LockedElsewhere(cfg, s, pid, proc, p, q, p); }
    }
  }

  /** Of two packages under the root, both are. */
  lemma BothInside(s: State, p: Pkg)
    requires NamesKept(s.sources.Keys) && INFO_LOCK in s.sources && !OneInside(s) && p in s.sources
    ensures s.sources[p].Inside()
  {
    var a: Pkg, b: Pkg :| a in s.sources && b in s.sources && s.sources[a].Inside() && s.sources[b].Inside() && a != b;
    if p != INFO_LOCK {
      TwoPackages(s, p, if a == INFO_LOCK then b else a);
    }
    if p == INFO_LOCK && a != INFO_LOCK && b != INFO_LOCK { TwoPackages(s, a, b); }
  }

  /** A lock that a process holds by name is lost only when a data file is put in its place. */
  lemma HeldStays(cfg: Config, s: State, pid: Pid, proc: Proc, p: Pkg, q: Pid, name: string)
    requires CanStep(cfg, s, pid, proc, p) && q != pid && name in s.locks && s.locks[name] == q
    requires !(proc.pc.DataLocked? && p == name)
    ensures var s' := After(cfg, s, pid, proc, p); name in s'.locks && s'.locks[name] == q
  {
    AfterFiles(cfg, s, pid, proc, p);
    assert LockTaken(proc.pc, p).Some? ==> LockTaken(proc.pc, p).value !in s.locks;
    hide ObjectName, PkgLock, DataLock, After, FilesAfter, NextPc;
  }

  lemma OtherLockedStays(cfg: Config, s: State, pid: Pid, proc: Proc, p: Pkg, q: Pid, k: Pkg)
    requires Steps(cfg, s, pid, proc, p) && AllLocked(cfg, s) && INFO_LOCK in s.sources
    requires q != pid && At(s, q, k) && !(proc.pc.DataLocked? && p == SPECIAL)
    ensures var s' := After(cfg, s, pid, proc, p);
      k in s'.sources && At(s', q, k) && LockedOk(cfg, s', q, k)
  {
    assert LockedOk(cfg, s, q, k) && k in s.sources;
    AfterProcs(cfg, s, pid, proc, p);
    LockedElsewhere(cfg, s, pid, proc, p, q, k);
    NamesApart(k, p);
    FilesStay(cfg, s, pid, proc, p, k);
    if Entry(cfg, s, k) { EntryStays(cfg, s, pid, proc, p, k); }
    assert p == PkgLock(k) ==> p == SPECIAL by {
      if k != INFO_LOCK && p != INFO_LOCK { TwoPackages(s, p, k); }
    }
    HeldStays(cfg, s, pid, proc, p, q, PkgLock(k));
    if s.procs[q].pc.HoldsInfo() { HolderStays(cfg, s, pid, proc, p, q, k); }
    hide InfoOf, Kept, After, NextPc, Entry, CanStep, AllLocked, Settled, ObjectName, PkgLock, DataLock;
  }

  lemma HolderStays(cfg: Config, s: State, pid: Pid, proc: Proc, p: Pkg, q: Pid, k: Pkg)
    requires Steps(cfg, s, pid, proc, p) && AllLocked(cfg, s) && INFO_LOCK in s.sources
    requires q != pid && At(s, q, k) && s.procs[q].pc.HoldsInfo()
    ensures var s' := After(cfg, s, pid, proc, p);
      HoldsByName(s', q) || (k != INFO_LOCK && Settled(cfg, s', INFO_LOCK))
  {
    assert LockedOk(cfg, s, q, k) && k in s.sources;
    LockedElsewhere(cfg, s, pid, proc, p, q, k);
    if proc.pc.DataLocked? && p == INFO_LOCK {
      BecomesSettled(cfg, s, pid, proc, p);
    } else if HoldsByName(s, q) {
      HeldStays(cfg, s, pid, proc, p, q, INFO_LOCK);
    } else {
      SettledStays(cfg, s, pid, proc, p, INFO_LOCK);
    }
    hide InfoOf, Kept, After, NextPc, Settled, CanStep, AllLocked;
  }

  lemma OwnLockedStays(cfg: Config, s: State, pid: Pid, proc: Proc, p: Pkg)
    requires Steps(cfg, s, pid, proc, p) && AllLocked(cfg, s) && INFO_LOCK in s.sources && s.sources[p].Inside()
    requires !proc.pc.Finished?
    ensures var s' := After(cfg, s, pid, proc, p);
      p in s'.sources && At(s', pid, p) && LockedOk(cfg, s', pid, p)
  {
    AfterProcs(cfg, s, pid, proc, p);
    NextHolds(cfg, s, proc.pc, p);
    assert !proc.pc.Ready? ==> At(s, pid, p) && LockedOk(cfg, s, pid, p);
    assert proc.pc.Ready? ==> Sees(cfg, s, p, proc.pc);
    LockHere(cfg, s, pid, proc, p);
    SeesNext(cfg, s, pid, proc, p);
    var s' := After(cfg, s, pid, proc, p);
    if s'.procs[pid].pc.HoldsInfo() { OwnHolderStays(cfg, s, pid, proc, p); }
    hide InfoOf, Kept, After, NextPc, Entry, AllLocked, Settled, ObjectName, PkgLock, DataLock, Sees;
  }

  lemma OwnHolderStays(cfg: Config, s: State, pid: Pid, proc: Proc, p: Pkg)
    requires Steps(cfg, s, pid, proc, p) && AllLocked(cfg, s)
    requires proc.pc.Digested? || (proc.pc.HoldsInfo() && !proc.pc.InfoWritten?)
    ensures var s' := After(cfg, s, pid, proc, p);
      HoldsByName(s', pid) || (p != INFO_LOCK && Settled(cfg, s', INFO_LOCK))
  {
    AfterFiles(cfg, s, pid, proc, p);
    assert At(s, pid, p) && LockedOk(cfg, s, pid, p);
    if proc.pc.HoldsInfo() && !HoldsByName(s, pid) { SettledStays(cfg, s, pid, proc, p, INFO_LOCK); }
    hide InfoOf, Kept, After, CanStep, Settled, AllLocked, FilesAfter;
  }

  lemma AllLockedStays(cfg: Config, s: State, pid: Pid, proc: Proc, p: Pkg)
    requires Steps(cfg, s, pid, proc, p) && AllLocked(cfg, s) && INFO_LOCK in s.sources && !OneInside(s)
    ensures var s' := After(cfg, s, pid, proc, p); AllLocked(cfg, s') || Settled(cfg, s', SPECIAL)
  {
    var s' := After(cfg, s, pid, proc, p);
    AfterProcs(cfg, s, pid, proc, p);
    if proc.pc.DataLocked? && p == SPECIAL {
      BecomesSettled(cfg, s, pid, proc, p);
    } else {
      hide LockedOk, Kept, After, NextPc;
      assert NamesKept(s.sources.Keys) by { KeptNames(cfg, s); }
      forall q, k | At(s', q, k) ensures k in s'.sources && s'.sources[k].Inside() && LockedOk(cfg, s', q, k) {
        if q == pid {
          BothInside(s, p);
          OwnLockedStays(cfg, s, pid, proc, p);
        } else {
          OtherLockedStays(cfg, s, pid, proc, p, q, k);
          BothInside(s, k);
        }
      }
    }
  }

  lemma KeptNames(cfg: Config, s: State)
    requires Kept(cfg, s)
    ensures NamesKept(s.sources.Keys)
  {
  }

  // ----- one step keeps everything -----

  lemma OneWriterStays(cfg: Config, s: State, pid: Pid, proc: Proc, p: Pkg)
    requires Steps(cfg, s, pid, proc, p)
    ensures OneWriter(cfg, After(cfg, s, pid, proc, p))
  {
    var s' := After(cfg, s, pid, proc, p);
    AfterProcs(cfg, s, pid, proc, p);
    hide NextPc, Settled, AllLocked, After;
    if INFO_LOCK !in s.sources {
      forall q | q in s'.procs && s'.procs[q].pc.HoldsInfo() ensures HoldsByName(s', q) {
        ByNameStays(cfg, s, pid, proc, p, q);
      }
    } else if OneInside(s) {
    } else if Settled(cfg, s, SPECIAL) {
      NamesApart(INFO_LOCK, INFO_LOCK);
      SettledStays(cfg, s, pid, proc, p, SPECIAL);
    } else {
      AllLockedStays(cfg, s, pid, proc, p);
    }
  }

  /** Two processes that hold the info lock at once are at one package. */
  lemma WritersTogether(cfg: Config, s: State, pid: Pid, proc: Proc, p: Pkg, q: Pid)
    requires Steps(cfg, s, pid, proc, p) && q in s.procs && q != pid
    requires proc.pc.InfoCopied? && s.procs[q].pc.InfoCopied?
    ensures At(s, q, p)
  {
    assert ProcKept(cfg, s, s.procs[q]) && ProcKept(cfg, s, proc);
    var k := s.procs[q].todo[0];
    assert At(s, q, k) && At(s, pid, p) && k in s.sources;
    assert INFO_LOCK !in s.sources ==> HoldsByName(s, q) && HoldsByName(s, pid);
    if INFO_LOCK !in s.sources || OneInside(s) {
    } else if Settled(cfg, s, SPECIAL) {
      assert p != SPECIAL && k != SPECIAL && SPECIAL in s.sources && SPECIAL != INFO_LOCK;
      if p != INFO_LOCK { TwoPackages(s, p, SPECIAL); }
      if k != INFO_LOCK { TwoPackages(s, k, SPECIAL); }
    } else {
      OneHolder(cfg, s, pid, proc, p, q, k);
    }
  }

  lemma StepKept(cfg: Config, s: State, pid: Pid, proc: Proc, p: Pkg)
    requires Steps(cfg, s, pid, proc, p)
    ensures Kept(cfg, After(cfg, s, pid, proc, p))
  {
    var s' := After(cfg, s, pid, proc, p);
    AfterProcs(cfg, s, pid, proc, p);
    OneWriterStays(cfg, s, pid, proc, p);
    KeptNames(cfg, s);
    hide OneWriter, Kept, ProcKept, After, NextPc;
    forall q | q in s'.procs ensures ProcKept(cfg, s', s'.procs[q]) {
      if q == pid {
        CarriesNext(cfg, s, pid, proc, p);
      } else {
        if proc.pc.InfoCopied? && s.procs[q].pc.InfoCopied? { WritersTogether(cfg, s, pid, proc, p, q); }
        OtherCarries(cfg, s, pid, proc, p, q);
      }
    }
  }

  // ----- whole runs -----

  lemma ProcsChangeKept(cfg: Config, s: State, s': State)
    requires Kept(cfg, s) && s' == s.(procs := s'.procs)
    requires forall q | Working(s', q) :: q in s.procs && s'.procs[q] == s.procs[q]
    requires forall q | q in s'.procs :: ProcKept(cfg, s, s'.procs[q])
    ensures Kept(cfg, s')
  {
    assert forall q, p | At(s', q, p) :: At(s, q, p);
    forall q | q in s'.procs ensures ProcKept(cfg, s', s'.procs[q]) {
      hide InfoOf;
      assert ProcKept(cfg, s, s'.procs[q]);
    }
    hide ProcKept;
    SettledUnchanged(cfg, s, s', INFO_LOCK);
    SettledUnchanged(cfg, s, s', SPECIAL);
    hide Settled, PkgLock, InfoOf;
    if AllLocked(cfg, s) {
      forall q, p | At(s', q, p) ensures p in s'.sources && s'.sources[p].Inside() && LockedOk(cfg, s', q, p) {
        assert LockedOk(cfg, s, q, p);
      }
    }
  }

  lemma SettledUnchanged(cfg: Config, s: State, s': State, p: Pkg)
    requires s' == s.(procs := s'.procs) && forall q | At(s', q, p) :: At(s, q, p) && s'.procs[q] == s.procs[q]
    ensures Settled(cfg, s, p) ==> Settled(cfg, s', p)
  {
    hide InfoOf, ObjectName;
  }

  lemma DoKept(cfg: Config, s: State, a: Action)
    requires Kept(cfg, s) && Do(cfg, s, a).Some?
    ensures Kept(cfg, Do(cfg, s, a).value)
  {
    var s' := Do(cfg, s, a).value;
    match a {
      case Advance(pid) => StepKept(cfg, s, pid, s.procs[pid], s.procs[pid].todo[0]);
      case Start(pid, todo, overrides) =>
        assert forall q | q in s.procs :: ProcKept(cfg, s, s.procs[q]);
        assert ProcKept(cfg, s, s'.procs[pid]);
        hide Kept, ProcKept;
        ProcsChangeKept(cfg, s, s');
      case Exit(pid) =>
        assert forall q | q in s.procs :: ProcKept(cfg, s, s.procs[q]);
        hide Kept;
        ProcsChangeKept(cfg, s, s');
      case Edit(p, src) =>
        assert s'.sources.Keys == s.sources.Keys;
        assert AllLocked(cfg, s');
    }
  }

  lemma {:induction false} RunKept(cfg: Config, s: State, actions: seq<Action>)
    requires Kept(cfg, s) && Run(cfg, s, actions).Some?
    ensures Kept(cfg, Run(cfg, s, actions).value)
    ensures Run(cfg, s, actions).value.sources.Keys == s.sources.Keys
    decreases |actions|
  {
    if actions != [] {
      KeysStay(cfg, s, actions[0]);
      hide Kept, Do;
      DoKept(cfg, s, actions[0]);
      RunKept(cfg, Do(cfg, s, actions[0]).value, actions[1..]);
    }
  }

  lemma KeysStay(cfg: Config, s: State, a: Action)
    requires Do(cfg, s, a).Some?
    ensures Do(cfg, s, a).value.sources.Keys == s.sources.Keys
  {
  }

  lemma DoKeepsEntries(cfg: Config, s: State, a: Action)
    requires Kept(cfg, s) && Do(cfg, s, a).Some?
    ensures EntriesKept(cfg, s, Do(cfg, s, a).value)
  {
    if a.Advance? {
      InfoChanges(cfg, s, a.pid, s.procs[a.pid], s.procs[a.pid].todo[0]);
      hide Kept, InfoOf;
    }
  }

  /** Names that keep off the digest file: no entry is lost in any run, whatever the layouts. */
  lemma InfoEntriesSurvive(cfg: Config, pkgs: set<Pkg>)
    requires NamesKept(pkgs)
    ensures Survives(cfg, pkgs)
  {
    hide Kept, EntriesKept, Initial, Do;
    forall s0, s, a ensures SurvivesIn(cfg, pkgs, s0, s, a) {
      if Initial(cfg, s0) && s0.sources.Keys == pkgs && Reaches(cfg, s0, s) && Do(cfg, s, a).Some? {
        var actions :| Run(cfg, s0, actions) == Some(s);
        InitialKept(cfg, s0);
        RunKept(cfg, s0, actions);
        DoKeepsEntries(cfg, s, a);
      }
    }
  }

  // ----- exactly -----

  lemma LostBy(cfg: Config, pkgs: set<Pkg>, s0: State, s: State, pid: Pid, s': State, path: RealPath)
    requires Initial(cfg, s0) && s0.sources.Keys == pkgs && Reaches(cfg, s0, s)
    requires Do(cfg, s, Advance(pid)) == Some(s') && path in InfoOf(s.files) && path !in InfoOf(s'.files)
    ensures !Survives(cfg, pkgs)
  {
    hide Reaches, Initial, InfoOf, Do;
    assert !EntriesKept(cfg, s, s');
    assert !SurvivesIn(cfg, pkgs, s0, s, Advance(pid));
  }

  /** The data file of the package `info` replaces the digest file, with all its entries. */
  lemma InfoPackageLosesEntries(cfg: Config, sources: map<Pkg, Source>)
    requires Initial(cfg, NoCache(sources)) && INFO in sources && sources[INFO].Inside()
    ensures !Survives(cfg, sources.Keys)
  {
    hide Reaches, PkgLock, DataLock, ObjectName, Opened, RecordedFiles, Survives, Initial;
    var s0 := NoCache(sources);
    NamesApart(INFO, INFO);
    var t := FirstBuild(cfg, sources, INFO);
    FirstRecord(cfg, t, INFO, t.procs[0].program[INFO]);
    var s := Records(cfg, s0, t, 0, INFO);
    s := LocksData(cfg, s0, s, 0, INFO);
    var s' := Moves(cfg, s0, s, 0, INFO, DataLocked);
    assert InfoOf(s'.files) == map[];
    LostBy(cfg, sources.Keys, s0, s, 0, s', RealPathOf(INFO, sources[INFO]));
  }

  /** Every package may lie under the root. */
  ghost predicate MayBeInside(cfg: Config, p: Pkg)
  {
    exists src :: cfg.Allowed(p, src) && src.Inside()
  }

  ghost function InsideSource(cfg: Config, p: Pkg): (src: Source)
    requires MayBeInside(cfg, p)
    ensures cfg.Allowed(p, src) && src.Inside()
  {
    var src :| cfg.Allowed(p, src) && src.Inside();
    src
  }

  lemma NamesLoseEntries(cfg: Config, pkgs: set<Pkg>)
    requires !NamesKept(pkgs) && forall p | p in pkgs :: MayBeInside(cfg, p)
    ensures !Survives(cfg, pkgs)
  {
    var sources := map p | p in pkgs :: InsideSource(cfg, p);
    assert sources.Keys == pkgs && Initial(cfg, NoCache(sources));
    hide Survives, Initial, Reaches, MayBeInside;
    if INFO in pkgs {
      InfoPackageLosesEntries(cfg, sources);
    } else {
      var p, r := TwoOthers(pkgs);
      if r == ObjectName(p) {
        NamesApart(p, p);
        NamesApart(r, r);
        p, r := r, p;
      }
      var s, s' := DataFileReplacesInfoLock(cfg, sources, p, r);
      LostBy(cfg, pkgs, NoCache(sources), s, 1, s', RealPathOf(r, s.sources[r]));
    }
  }

  /** For packages that may lie under the root: no entry of the digest file is ever lost, whatever the layouts
      and the interleaving, exactly when no package is `info`, and `info.lock` has at most one other beside
      it. */
  lemma SurvivesExactlyWhenNamesKept(cfg: Config, pkgs: set<Pkg>)
    requires forall p | p in pkgs :: MayBeInside(cfg, p)
    ensures Survives(cfg, pkgs) <==> NamesKept(pkgs)
  {
    hide Survives, MayBeInside, NamesKept;
    if NamesKept(pkgs) { InfoEntriesSurvive(cfg, pkgs); } else { NamesLoseEntries(cfg, pkgs); }
  }
}
