/** Single processes at work on the build cache, as stretches of a run: looking in vain, building, hitting.
    kclvm/runner/src/assembler.rs:325-389, kclvm/config/src/cache.rs. */
module BuildCacheRuns {
  import opened Wrappers
  import opened BuildCache

  ghost predicate Reaches(cfg: Config, s: State, s': State)
  {
    exists actions :: Run(cfg, s, actions) == Some(s')
  }

  lemma {:induction false} RunAppend(cfg: Config, s: State, a: seq<Action>, b: seq<Action>)
    requires Run(cfg, s, a).Some?
    ensures Run(cfg, s, a + b) == Run(cfg, Run(cfg, s, a).value, b)
    decreases |a|
  {
    if a == [] {
      assert a + b == b;
    } else {
      RunAppend(cfg, Do(cfg, s, a[0]).value, a[1..], b);
      assert (a + b)[1..] == a[1..] + b;
    }
  }

  lemma ReachesSelf(cfg: Config, s: State)
    ensures Reaches(cfg, s, s)
  {
    assert Run(cfg, s, []) == Some(s);
  }

  lemma ReachesOn(cfg: Config, s: State, s1: State, a: Action, s2: State)
    requires Reaches(cfg, s, s1) && Do(cfg, s1, a) == Some(s2)
    ensures Reaches(cfg, s, s2)
  {
    var actions :| Run(cfg, s, actions) == Some(s1);
    RunAppend(cfg, s, actions, [a]);
    assert Run(cfg, s1, [a]) == Some(s2);
  }

  // ----- one process, one stretch -----

  /** Process `pid` has `p` next, at program point `pc`. */
  predicate Sits(s: State, pid: Pid, p: Pkg, pc: Pc)
  {
    && pid in s.procs && s.procs[pid].todo != [] && s.procs[pid].todo[0] == p && s.procs[pid].pc == pc
    && p in s.sources && p in s.procs[pid].program
  }

  /** The state with the process at another program point. */
  function Moved(s: State, pid: Pid, pc: Pc, files: Files, locks: map<string, Pid>): State
    requires pid in s.procs
  {
    State(s.sources, files, locks, s.procs[pid := s.procs[pid].(pc := pc)])
  }

  /** Of two moves of a process the later one counts. */
  lemma MovedTwice()
    ensures forall s: State, pid: Pid, pc, files, locks, pc', files', locks'
      {:trigger Moved(Moved(s, pid, pc, files, locks), pid, pc', files', locks')} | pid in s.procs ::
      Moved(Moved(s, pid, pc, files, locks), pid, pc', files', locks') == Moved(s, pid, pc', files', locks')
    ensures forall s: State, pid: Pid, pc, files, locks {:trigger Moved(s, pid, pc, files, locks)} | pid in s.procs ::
      var s' := Moved(s, pid, pc, files, locks);
      s'.sources == s.sources && s'.files == files && s'.locks == locks && pid in s'.procs
      && s'.procs[pid] == s.procs[pid].(pc := pc)
  {
    forall s: State, pid: Pid, pc, files, locks, pc', files', locks' | pid in s.procs
      ensures Moved(Moved(s, pid, pc, files, locks), pid, pc', files', locks') == Moved(s, pid, pc', files', locks')
    {
      assert s.procs[pid := s.procs[pid].(pc := pc)][pid := s.procs[pid].(pc := pc')]
        == s.procs[pid := s.procs[pid].(pc := pc')];
    }
  }

  lemma Moves(cfg: Config, s0: State, s: State, pid: Pid, p: Pkg, pc: Pc) returns (s': State)
    requires Reaches(cfg, s0, s) && Sits(s, pid, p, pc) && !pc.Finished? && NextPc(cfg, s, pc, p).Some?
    ensures Reaches(cfg, s0, s') && Do(cfg, s, Advance(pid)) == Some(s')
    ensures Sits(s', pid, p, NextPc(cfg, s, pc, p).value)
    ensures s' == Moved(s, pid, NextPc(cfg, s, pc, p).value, FilesAfter(s, s.procs[pid], p),
                        LocksAfter(s.locks, pid, pc, p))
  {
    hide Reaches, NextPc, FilesAfter, LocksAfter;
    s' := Moved(s, pid, NextPc(cfg, s, pc, p).value, FilesAfter(s, s.procs[pid], p),
                LocksAfter(s.locks, pid, pc, p));
    assert Do(cfg, s, Advance(pid)) == Some(s');
    ReachesOn(cfg, s0, s, Advance(pid), s');
  }

  /** Program points whose step touches neither files nor locks. */
  predicate Quiet(pc: Pc)
  {
    pc.Locked? || pc.DataSeen? || pc.InfoSeen? || pc.Current? || pc.DataLoaded? || pc.Emitted? || pc.InfoLocked?
  }

  lemma MovesQuietly(cfg: Config, s0: State, s: State, pid: Pid, p: Pkg, pc: Pc) returns (s': State)
    requires Reaches(cfg, s0, s) && Sits(s, pid, p, pc) && Quiet(pc)
    ensures NextPc(cfg, s, pc, p).Some?
    ensures Reaches(cfg, s0, s') && Sits(s', pid, p, NextPc(cfg, s, pc, p).value)
    ensures s' == Moved(s, pid, NextPc(cfg, s, pc, p).value, s.files, s.locks)
  {
    assert NextPc(cfg, s, pc, p).Some?;
    hide Reaches, NextPc;
    s' := Moves(cfg, s0, s, pid, p, pc);
  }

  lemma MovesLocking(cfg: Config, s0: State, s: State, pid: Pid, p: Pkg, pc: Pc, name: string) returns (s': State)
    requires Reaches(cfg, s0, s) && Sits(s, pid, p, pc) && LockTaken(pc, p) == Some(name) && name !in s.locks
    ensures NextPc(cfg, s, pc, p).Some?
    ensures Reaches(cfg, s0, s') && Sits(s', pid, p, NextPc(cfg, s, pc, p).value)
    ensures s' == Moved(s, pid, NextPc(cfg, s, pc, p).value, Opened(s.files, name), s.locks[name := pid])
  {
    hide Reaches, PkgLock, DataLock, Opened;
    s' := Moves(cfg, s0, s, pid, p, pc);
  }

  lemma MovesUnlocking(cfg: Config, s0: State, s: State, pid: Pid, p: Pkg, pc: Pc, name: string) returns (s': State)
    requires Reaches(cfg, s0, s) && Sits(s, pid, p, pc) && LockGiven(pc, p) == Some(name) && !pc.Finished?
    ensures NextPc(cfg, s, pc, p).Some?
    ensures Reaches(cfg, s0, s') && Sits(s', pid, p, NextPc(cfg, s, pc, p).value)
    ensures s' == Moved(s, pid, NextPc(cfg, s, pc, p).value, s.files, Released(s.locks, pid, name))
  {
    hide Reaches, PkgLock, DataLock, Released;
    s' := Moves(cfg, s0, s, pid, p, pc);
  }

  function Now(cfg: Config, s: State, p: Pkg): string
    requires p in s.sources
  {
    cfg.digest(s.sources[p].Digested())
  }

  /** The digest recorded for the package is not the one of its sources. */
  predicate NotRecorded(cfg: Config, s: State, p: Pkg)
    requires p in s.sources
  {
    var path, info := RealPathOf(p, s.sources[p]), InfoOf(s.files);
    s.sources[p].Checked() && (path !in info || info[path] != Now(cfg, s, p))
  }

  predicate RecordedOrUnchecked(cfg: Config, s: State, p: Pkg)
    requires p in s.sources
  {
    var path, info := RealPathOf(p, s.sources[p]), InfoOf(s.files);
    !s.sources[p].Checked() || (path in info && info[path] == Now(cfg, s, p))
  }

  lemma OpenedKeepsInfo(files: Files, name: string)
    requires name != INFO
    ensures InfoOf(Opened(files, name)) == InfoOf(files)
    ensures forall n | n != name :: (n in Opened(files, name) <==> n in files)
    ensures forall n | n in files :: n in Opened(files, name) && Opened(files, name)[n] == files[n]
  {
  }

  lemma LockAndUnlock(locks: map<string, Pid>, pid: Pid, name: string)
    requires name !in locks
    ensures Released(locks[name := pid], pid, name) == locks
  {
    assert locks[name := pid] - {name} == locks;
  }

  lemma RemoveAndPut(files: Files, name: string, content: Content)
    ensures (files - {name})[name := content] == files[name := content]
  {
  }

  lemma TakesLock(cfg: Config, s0: State, s: State, pid: Pid, p: Pkg) returns (s': State)
    requires Reaches(cfg, s0, s) && Sits(s, pid, p, Ready) && PkgLock(p) !in s.locks
    ensures Reaches(cfg, s0, s') && Sits(s', pid, p, Locked)
    ensures s' == Moved(s, pid, Locked, Opened(s.files, PkgLock(p)), s.locks[PkgLock(p) := pid])
    ensures InfoOf(s'.files) == InfoOf(s.files) && (p in s'.files <==> p in s.files)
  {
    NamesApart(p, p);
    hide Reaches, PkgLock, FilesAfter, LocksAfter;
    OpenedKeepsInfo(s.files, PkgLock(p));
    s' := MovesLocking(cfg, s0, s, pid, p, Ready, PkgLock(p));
  }

  lemma LooksInVain(cfg: Config, s0: State, s: State, pid: Pid, p: Pkg) returns (s': State)
    requires Reaches(cfg, s0, s) && Sits(s, pid, p, Ready) && PkgLock(p) !in s.locks
    requires p !in s.files || NotRecorded(cfg, s, p)
    ensures Reaches(cfg, s0, s') && Sits(s', pid, p, Missed)
    ensures s' == Moved(s, pid, Missed, Opened(s.files, PkgLock(p)), s.locks[PkgLock(p) := pid])
  {
    MovedTwice();
    hide Moved, Reaches, PkgLock, Opened, InfoOf;
    s' := TakesLock(cfg, s0, s, pid, p);
    s' := GivesUp(cfg, s0, s', pid, p);
  }

  lemma GivesUp(cfg: Config, s0: State, s: State, pid: Pid, p: Pkg) returns (s': State)
    requires Reaches(cfg, s0, s) && Sits(s, pid, p, Locked) && (p !in s.files || NotRecorded(cfg, s, p))
    ensures Reaches(cfg, s0, s') && Sits(s', pid, p, Missed) && s' == Moved(s, pid, Missed, s.files, s.locks)
  {
    MovedTwice();
    hide Moved, Reaches, InfoOf, FilesAfter, LocksAfter;
    s' := MovesQuietly(cfg, s0, s, pid, p, Locked);
    if p in s.files { s' := Refuses(cfg, s0, s', pid, p); }
  }

  lemma Refuses(cfg: Config, s0: State, s: State, pid: Pid, p: Pkg) returns (s': State)
    requires Reaches(cfg, s0, s) && Sits(s, pid, p, DataSeen) && NotRecorded(cfg, s, p)
    ensures Reaches(cfg, s0, s') && Sits(s', pid, p, Missed) && s' == Moved(s, pid, Missed, s.files, s.locks)
  {
    MovedTwice();
    hide Moved, Reaches, InfoOf, FilesAfter, LocksAfter;
    s' := MovesQuietly(cfg, s0, s, pid, p, DataSeen);
    var path, info := RealPathOf(p, s.sources[p]), InfoOf(s.files);
    if path in info { s' := MovesQuietly(cfg, s0, s', pid, p, InfoSeen(info[path])); }
  }

  lemma Assembles(cfg: Config, s0: State, s: State, pid: Pid, p: Pkg) returns (s': State)
    requires Reaches(cfg, s0, s) && Sits(s, pid, p, Missed)
    ensures Reaches(cfg, s0, s') && Sits(s', pid, p, Emitted)
    ensures s' == Moved(s, pid, Emitted, s.files[ObjectName(p) := Object(s.procs[pid].program[p])], s.locks)
  {
    MovedTwice();
    RemoveAndPut(s.files, ObjectName(p), Object(s.procs[pid].program[p]));
    hide Moved, Reaches, ObjectName;
    s' := Moves(cfg, s0, s, pid, p, Missed);
    s' := Moves(cfg, s0, s', pid, p, Cleaned);
  }

  lemma Digests(cfg: Config, s0: State, s: State, pid: Pid, p: Pkg) returns (s': State)
    requires Reaches(cfg, s0, s) && Sits(s, pid, p, Emitted) && s.sources[p].Inside()
    ensures Reaches(cfg, s0, s') && Sits(s', pid, p, Digested(Now(cfg, s, p)))
    ensures s' == Moved(s, pid, Digested(Now(cfg, s, p)), s.files, s.locks)
  {
    hide Reaches, InfoOf, FilesAfter, LocksAfter;
    s' := MovesQuietly(cfg, s0, s, pid, p, Emitted);
  }

  lemma LocksInfo(cfg: Config, s0: State, s: State, pid: Pid, p: Pkg, d: string) returns (s': State)
    requires Reaches(cfg, s0, s) && Sits(s, pid, p, Digested(d)) && INFO_LOCK !in s.locks
    ensures Reaches(cfg, s0, s') && Sits(s', pid, p, InfoLocked(d))
    ensures s' == Moved(s, pid, InfoLocked(d), Opened(s.files, INFO_LOCK), s.locks[INFO_LOCK := pid])
  {
    hide Reaches, InfoOf, Opened, FilesAfter, LocksAfter;
    s' := MovesLocking(cfg, s0, s, pid, p, Digested(d), INFO_LOCK);
  }

  lemma ReadsInfo(cfg: Config, s0: State, s: State, pid: Pid, p: Pkg, d: string) returns (s': State)
    requires Reaches(cfg, s0, s) && Sits(s, pid, p, InfoLocked(d))
    ensures Reaches(cfg, s0, s') && Sits(s', pid, p, InfoCopied(d, InfoOf(s.files)))
    ensures s' == Moved(s, pid, InfoCopied(d, InfoOf(s.files)), s.files, s.locks)
  {
    hide Reaches, InfoOf, FilesAfter, LocksAfter;
    s' := MovesQuietly(cfg, s0, s, pid, p, InfoLocked(d));
  }

  lemma CopiesInfo(cfg: Config, s0: State, s: State, pid: Pid, p: Pkg) returns (s': State)
    requires Reaches(cfg, s0, s) && Sits(s, pid, p, Emitted) && s.sources[p].Inside() && INFO_LOCK !in s.locks
    ensures Reaches(cfg, s0, s') && Sits(s', pid, p, InfoCopied(Now(cfg, s, p), InfoOf(s.files)))
    ensures s' == Moved(s, pid, InfoCopied(Now(cfg, s, p), InfoOf(s.files)), Opened(s.files, INFO_LOCK),
                        s.locks[INFO_LOCK := pid])
  {
    OpenedKeepsInfo(s.files, INFO_LOCK);
    MovedTwice();
    hide Reaches, InfoOf, Opened, FilesAfter, LocksAfter, NextPc, Moved, Now;
    s' := Digests(cfg, s0, s, pid, p);
    s' := LocksInfo(cfg, s0, s', pid, p, Now(cfg, s, p));
    s' := ReadsInfo(cfg, s0, s', pid, p, Now(cfg, s, p));
  }

  lemma WritesInfo(cfg: Config, s0: State, s: State, pid: Pid, p: Pkg, d: string, copy: map<RealPath, string>)
    returns (s': State)
    requires Reaches(cfg, s0, s) && Sits(s, pid, p, InfoCopied(d, copy))
    ensures Reaches(cfg, s0, s') && Sits(s', pid, p, InfoReleased)
    ensures s' == Moved(s, pid, InfoReleased, s.files[INFO := Info(copy[RealPathOf(p, s.sources[p]) := d])],
                        Released(s.locks, pid, INFO_LOCK))
  {
    MovedTwice();
    hide Moved;
    hide Reaches, Released;
    s' := Moves(cfg, s0, s, pid, p, InfoCopied(d, copy));
    hide FilesAfter, LocksAfter;
    s' := MovesUnlocking(cfg, s0, s', pid, p, InfoWritten, INFO_LOCK);
  }

  /** The process takes the lock of the data file; the file itself is not yet in place. */
  lemma LocksData(cfg: Config, s0: State, s: State, pid: Pid, p: Pkg) returns (s': State)
    requires Reaches(cfg, s0, s) && Sits(s, pid, p, InfoReleased) && DataLock(p) !in s.locks
    ensures Reaches(cfg, s0, s') && Sits(s', pid, p, DataLocked)
    ensures s' == Moved(s, pid, DataLocked, Opened(s.files, DataLock(p)), s.locks[DataLock(p) := pid])
  {
    hide Reaches, DataLock, Opened, FilesAfter, LocksAfter;
    s' := MovesLocking(cfg, s0, s, pid, p, InfoReleased, DataLock(p));
  }

  /** The process after a package: its path is collected and the list moves on. */
  function Collected(proc: Proc, p: Pkg): Proc
    requires proc.todo != []
  {
    Proc(proc.program, proc.todo[1..], Ready, proc.libs + {p})
  }

  function Left(s: State, pid: Pid, p: Pkg, files: Files, locks: map<string, Pid>): State
    requires pid in s.procs && s.procs[pid].todo != []
  {
    State(s.sources, files, locks, s.procs[pid := Collected(s.procs[pid], p)])
  }

  /** What happened to the process before it leaves does not show. */
  lemma LeftAfterMoved()
    ensures forall s: State, pid: Pid, p, pc, files, locks, files', locks'
      {:trigger Left(Moved(s, pid, pc, files, locks), pid, p, files', locks')} |
      pid in s.procs && s.procs[pid].todo != [] ::
      Left(Moved(s, pid, pc, files, locks), pid, p, files', locks') == Left(s, pid, p, files', locks')
  {
    forall s: State, pid: Pid, p, pc, files, locks, files', locks' | pid in s.procs && s.procs[pid].todo != []
      ensures Left(Moved(s, pid, pc, files, locks), pid, p, files', locks') == Left(s, pid, p, files', locks')
    {
      var proc := Collected(s.procs[pid], p);
      assert s.procs[pid := s.procs[pid].(pc := pc)][pid := proc] == s.procs[pid := proc];
    }
  }

  lemma Leaves(cfg: Config, s0: State, s: State, pid: Pid, p: Pkg) returns (s': State)
    requires Reaches(cfg, s0, s) && Sits(s, pid, p, Finished)
    ensures Reaches(cfg, s0, s') && s' == Left(s, pid, p, s.files, Released(s.locks, pid, PkgLock(p)))
  {
    hide Reaches, PkgLock, Released;
    s' := Left(s, pid, p, s.files, Released(s.locks, pid, PkgLock(p)));
    assert Do(cfg, s, Advance(pid)) == Some(s');
    ReachesOn(cfg, s0, s, Advance(pid), s');
  }

  /** The data file is renamed into place, and the process is through. */
  lemma SavesData(cfg: Config, s0: State, s: State, pid: Pid, p: Pkg) returns (s': State)
    requires Reaches(cfg, s0, s) && Sits(s, pid, p, DataLocked)
    ensures Reaches(cfg, s0, s')
    ensures s' == Left(s, pid, p, s.files[p := Data],
                       Released(Released(s.locks - {p}, pid, DataLock(p)), pid, PkgLock(p)))
  {
    LeftAfterMoved();
    MovedTwice();
    hide Moved, Left;
    hide Reaches, DataLock, PkgLock, Released;
    s' := Moves(cfg, s0, s, pid, p, DataLocked);
    hide FilesAfter, LocksAfter;
    s' := MovesUnlocking(cfg, s0, s', pid, p, DataWritten, DataLock(p));
    s' := Leaves(cfg, s0, s', pid, p);
  }

  // ----- a whole package -----

  /** The files after a record of the package has been made, when there is something to digest. */
  function RecordedFiles(cfg: Config, s: State, p: Pkg, files: Files): Files
    requires p in s.sources
  {
    if !s.sources[p].Inside() then files
    else Opened(files, INFO_LOCK)[INFO := Info(InfoOf(files)[RealPathOf(p, s.sources[p]) := Now(cfg, s, p)])]
  }

  lemma Records(cfg: Config, s0: State, s: State, pid: Pid, p: Pkg) returns (s': State)
    requires Reaches(cfg, s0, s) && Sits(s, pid, p, Emitted) && INFO_LOCK !in s.locks
    ensures Reaches(cfg, s0, s') && Sits(s', pid, p, InfoReleased)
    ensures s' == Moved(s, pid, InfoReleased, RecordedFiles(cfg, s, p, s.files), s.locks)
  {
    MovedTwice();
    LockAndUnlock(s.locks, pid, INFO_LOCK);
    hide Moved, Reaches, Opened, InfoOf, FilesAfter, LocksAfter, Now, Released;
    if s.sources[p].Inside() {
      hide NextPc;
      s' := CopiesInfo(cfg, s0, s, pid, p);
      s' := WritesInfo(cfg, s0, s', pid, p, Now(cfg, s, p), InfoOf(s.files));
    } else {
      s' := MovesQuietly(cfg, s0, s, pid, p, Emitted);
    }
  }

  /** All files and locks after a build of the package by a process alone with it. */
  ghost predicate Built(cfg: Config, s: State, s': State, p: Pkg, text: string)
  {
    && p in s.sources && ObjectName(p) in s'.files && s'.files[ObjectName(p)] == Object(text) && HasData(s'.files, p)
    && InfoOf(s'.files) == (if p == INFO then map[] else InfoOf(RecordedFiles(cfg, s, p, s.files)))
    && s'.locks == s.locks - {p}
    && forall n | n in s.files && n != ObjectName(p) && n != p && n != INFO ::
         n in s'.files && s'.files[n] == s.files[n]
  }

  lemma FilesOfBuild(cfg: Config, s: State, p: Pkg, text: string)
    requires p in s.sources
    ensures var f1 := Opened(s.files, PkgLock(p))[ObjectName(p) := Object(text)];
      var f2 := Opened(RecordedFiles(cfg, s, p, f1), DataLock(p));
      var f3 := f2[p := Data];
      && ObjectName(p) in f3 && f3[ObjectName(p)] == Object(text)
      && InfoOf(f3) == (if p == INFO then map[] else InfoOf(RecordedFiles(cfg, s, p, s.files)))
      && (forall n | n in s.files && n != ObjectName(p) && n != p && n != INFO :: n in f3 && f3[n] == s.files[n])
  {
    NamesApart(p, p);
    hide PkgLock, ObjectName, DataLock;
    var f1 := Opened(s.files, PkgLock(p))[ObjectName(p) := Object(text)];
    assert InfoOf(f1) == InfoOf(s.files);
    RecordedKeeps(cfg, s, p, f1);
    RecordedKeeps(cfg, s, p, s.files);
    hide RecordedFiles;
    var f2 := Opened(RecordedFiles(cfg, s, p, f1), DataLock(p));
    assert InfoOf(f2) == InfoOf(RecordedFiles(cfg, s, p, f1));
  }

  lemma RecordedKeeps(cfg: Config, s: State, p: Pkg, files: Files)
    requires p in s.sources
    ensures var files' := RecordedFiles(cfg, s, p, files);
      && InfoOf(files') == (if !s.sources[p].Inside() then InfoOf(files)
                            else InfoOf(files)[RealPathOf(p, s.sources[p]) := Now(cfg, s, p)])
      && forall n | n in files && n != INFO :: n in files' && files'[n] == files[n]
  {
  }

  lemma LocksOfBuild(locks: map<string, Pid>, pid: Pid, p: Pkg)
    requires PkgLock(p) !in locks && DataLock(p) !in locks
    ensures Released(Released(locks[PkgLock(p) := pid][DataLock(p) := pid] - {p}, pid, DataLock(p)), pid, PkgLock(p))
      == locks - {p}
  {
    NamesApart(p, p);
    hide PkgLock, ObjectName, DataLock;
  }

  predicate Free(s: State, p: Pkg)
  {
    PkgLock(p) !in s.locks && INFO_LOCK !in s.locks && DataLock(p) !in s.locks
  }

  lemma Prepares(cfg: Config, s0: State, s: State, pid: Pid, p: Pkg) returns (s': State)
    requires Reaches(cfg, s0, s) && Sits(s, pid, p, Ready) && PkgLock(p) !in s.locks
    requires p !in s.files || NotRecorded(cfg, s, p)
    ensures Reaches(cfg, s0, s') && Sits(s', pid, p, Emitted)
    ensures s' == Moved(s, pid, Emitted,
                        Opened(s.files, PkgLock(p))[ObjectName(p) := Object(s.procs[pid].program[p])],
                        s.locks[PkgLock(p) := pid])
  {
    MovedTwice();
    hide Moved;
    hide Reaches, PkgLock, ObjectName, Opened, InfoOf, NotRecorded;
    s' := LooksInVain(cfg, s0, s, pid, p);
    s' := Assembles(cfg, s0, s', pid, p);
  }

  lemma Completes(cfg: Config, s0: State, s: State, pid: Pid, p: Pkg) returns (s': State)
    requires Reaches(cfg, s0, s) && Sits(s, pid, p, Emitted) && INFO_LOCK !in s.locks && DataLock(p) !in s.locks
    ensures Reaches(cfg, s0, s')
    ensures s' == Left(s, pid, p, Opened(RecordedFiles(cfg, s, p, s.files), DataLock(p))[p := Data],
                       Released(Released(s.locks[DataLock(p) := pid] - {p}, pid, DataLock(p)), pid, PkgLock(p)))
  {
    LeftAfterMoved();
    MovedTwice();
    hide Moved, Left;
    hide Reaches, PkgLock, ObjectName, DataLock, RecordedFiles, Opened, Released;
    s' := Records(cfg, s0, s, pid, p);
    s' := LocksData(cfg, s0, s', pid, p);
    s' := SavesData(cfg, s0, s', pid, p);
  }

  /** A process that looks in vain builds the package and collects its path. */
  lemma Builds(cfg: Config, s0: State, s: State, pid: Pid, p: Pkg) returns (s': State)
    requires Reaches(cfg, s0, s) && Sits(s, pid, p, Ready) && Free(s, p)
    requires p !in s.files || NotRecorded(cfg, s, p)
    ensures Reaches(cfg, s0, s') && Built(cfg, s, s', p, s.procs[pid].program[p])
    ensures s' == Left(s, pid, p, s'.files, s'.locks)
  {
    LeftAfterMoved();
    MovedTwice();
    hide Reaches, PkgLock, DataLock, ObjectName, RecordedFiles, Opened, InfoOf, NotRecorded, Released;
    NamesApart(p, p);
    FilesOfBuild(cfg, s, p, s.procs[pid].program[p]);
    LocksOfBuild(s.locks, pid, p);
    var emitted := Prepares(cfg, s0, s, pid, p);
    SameSources(cfg, s, emitted, p, emitted.files);
    s' := Completes(cfg, s0, emitted, pid, p);
  }

  lemma SameSources(cfg: Config, s: State, t: State, p: Pkg, files: Files)
    requires p in s.sources && t.sources == s.sources
    ensures RecordedFiles(cfg, t, p, files) == RecordedFiles(cfg, s, p, files)
  {
  }

  /** A process that finds the data file, a fitting record, and the object collects its path. */
  lemma Hits(cfg: Config, s0: State, s: State, pid: Pid, p: Pkg) returns (s': State)
    requires Reaches(cfg, s0, s) && Sits(s, pid, p, Ready) && PkgLock(p) !in s.locks
    requires HasData(s.files, p) && ObjectName(p) in s.files && RecordedOrUnchecked(cfg, s, p)
    ensures Reaches(cfg, s0, s')
    ensures s' == Left(s, pid, p, Opened(s.files, PkgLock(p)), s.locks)
    ensures ObjectName(p) in s'.files && s'.files[ObjectName(p)] == s.files[ObjectName(p)]
  {
    LeftAfterMoved();
    MovedTwice();
    NamesApart(p, p);
    OpenedKeepsInfo(s.files, PkgLock(p));
    LockAndUnlock(s.locks, pid, PkgLock(p));
    hide Reaches, PkgLock, ObjectName, Moved, Left, Opened, InfoOf, Released;
    s' := TakesLock(cfg, s0, s, pid, p);
    s' := Accepts(cfg, s0, s', pid, p);
    s' := Collects(cfg, s0, s', pid, p);
  }

  lemma Collects(cfg: Config, s0: State, s: State, pid: Pid, p: Pkg) returns (s': State)
    requires Reaches(cfg, s0, s) && Sits(s, pid, p, Current) && HasData(s.files, p) && ObjectName(p) in s.files
    ensures Reaches(cfg, s0, s') && s' == Left(s, pid, p, s.files, Released(s.locks, pid, PkgLock(p)))
  {
    LeftAfterMoved();
    MovedTwice();
    hide Moved, Left;
    hide Reaches, PkgLock, ObjectName, Released, InfoOf, FilesAfter, LocksAfter;
    s' := MovesQuietly(cfg, s0, s, pid, p, Current);
    s' := MovesQuietly(cfg, s0, s', pid, p, DataLoaded);
    s' := Leaves(cfg, s0, s', pid, p);
  }

  lemma Accepts(cfg: Config, s0: State, s: State, pid: Pid, p: Pkg) returns (s': State)
    requires Reaches(cfg, s0, s) && Sits(s, pid, p, Locked) && p in s.files && RecordedOrUnchecked(cfg, s, p)
    ensures Reaches(cfg, s0, s') && Sits(s', pid, p, Current) && s' == Moved(s, pid, Current, s.files, s.locks)
  {
    MovedTwice();
    hide Moved;
    hide Reaches, InfoOf, FilesAfter, LocksAfter;
    s' := MovesQuietly(cfg, s0, s, pid, p, Locked);
    s' := MovesQuietly(cfg, s0, s', pid, p, DataSeen);
    if s.sources[p].Checked() { s' := MovesQuietly(cfg, s0, s', pid, p, InfoSeen(Now(cfg, s, p))); }
  }

  /** A process starts with nothing but the package to do. */
  lemma Starts(cfg: Config, s0: State, s: State, pid: Pid, todo: seq<Pkg>, overrides: map<Pkg, string>)
    returns (s': State)
    requires Reaches(cfg, s0, s) && pid !in s.procs && CanStart(cfg, s, todo, overrides)
    ensures Reaches(cfg, s0, s')
    ensures s' == s.(procs := s.procs[pid := Proc(Program(s.sources, todo, overrides), todo, Ready, {})])
  {
    s' := s.(procs := s.procs[pid := Proc(Program(s.sources, todo, overrides), todo, Ready, {})]);
    hide Reaches;
    ReachesOn(cfg, s0, s, Start(pid, todo, overrides), s');
  }

  lemma Exits(cfg: Config, s0: State, s: State, pid: Pid) returns (s': State)
    requires Reaches(cfg, s0, s) && pid in s.procs && s.procs[pid].todo == []
    ensures Reaches(cfg, s0, s') && s' == s.(procs := s.procs - {pid})
  {
    s' := s.(procs := s.procs - {pid});
    hide Reaches;
    ReachesOn(cfg, s0, s, Exit(pid), s');
  }

  lemma Edits(cfg: Config, s0: State, s: State, p: Pkg, src: Source) returns (s': State)
    requires Reaches(cfg, s0, s) && s.procs == map[] && p in s.sources && cfg.Allowed(p, src)
    ensures Reaches(cfg, s0, s') && s' == s.(sources := s.sources[p := src])
  {
    s' := s.(sources := s.sources[p := src]);
    hide Reaches;
    ReachesOn(cfg, s0, s, Edit(p, src), s');
  }

  function NoCache(sources: map<Pkg, Source>): State
  {
    State(sources, map[], map[], map[])
  }
}
