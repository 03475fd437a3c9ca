/** No run of the build cache gets stuck, whatever the packages look like and whatever their names are.
    kclvm/runner/src/assembler.rs:305-389, kclvm/config/src/cache.rs. */
module BuildCacheProgress {
  import opened Wrappers
  import opened BuildCache

  /** Why a process may hold the lock of a file. */
  predicate Role(proc: Proc, name: string)
  {
    && !proc.pc.Ready? && proc.todo != []
    && (|| name == PkgLock(proc.todo[0])
        || (proc.pc.HoldsInfo() && name == INFO_LOCK)
        || (proc.pc.HoldsData() && name == DataLock(proc.todo[0])))
  }

  predicate ProcSound(s: State, proc: Proc)
  {
    && (forall p | p in proc.todo :: p in s.sources && p in proc.program)
    && (proc.pc.Ready? || proc.todo != [])
  }

  /** Every lock is held by a process that is at a point to hold it. */
  ghost predicate Sound(s: State)
  {
    && (forall q | q in s.procs :: ProcSound(s, s.procs[q]))
    && (forall name | name in s.locks :: s.locks[name] in s.procs && Role(s.procs[s.locks[name]], name))
  }

  lemma InitialSound(cfg: Config, s: State)
    requires Initial(cfg, s)
    ensures Sound(s)
  {
  }

  /** The stepping process keeps its other locks, gives one back, or takes one. */
  lemma OwnRoles(cfg: Config, s: State, pid: Pid, proc: Proc, p: Pkg, name: string)
    requires CanStep(cfg, s, pid, proc, p) && Sound(s)
    requires var s' := After(cfg, s, pid, proc, p); name in s'.locks && s'.locks[name] == pid
    ensures Role(After(cfg, s, pid, proc, p).procs[pid], name)
  {
    AfterFiles(cfg, s, pid, proc, p);
    AfterProcs(cfg, s, pid, proc, p);
    NextHolds(cfg, s, proc.pc, p);
    NamesApart(p, p);
    assert name in s.locks && s.locks[name] == pid ==> Role(proc, name);
    hide ObjectName, PkgLock, DataLock, FilesAfter, Sound, CanStep, After, NextPc;
  }

  lemma OtherLocks(cfg: Config, s: State, pid: Pid, proc: Proc, p: Pkg, name: string)
    requires CanStep(cfg, s, pid, proc, p)
    requires var s' := After(cfg, s, pid, proc, p); name in s'.locks && s'.locks[name] != pid
    ensures name in s.locks && s.locks[name] == After(cfg, s, pid, proc, p).locks[name]
  {
    hide ObjectName, PkgLock, DataLock, FilesAfter, NextPc;
  }

  lemma StepSound(cfg: Config, s: State, pid: Pid, proc: Proc, p: Pkg)
    requires CanStep(cfg, s, pid, proc, p) && Sound(s)
    ensures Sound(After(cfg, s, pid, proc, p))
  {
    var s' := After(cfg, s, pid, proc, p);
    assert ProcSound(s, proc) && forall k | k in proc.todo[1..] :: k in proc.todo;
    assert forall q | q in s.procs && q != pid :: s'.procs[q] == s.procs[q] && ProcSound(s, s.procs[q]);
    assert ProcSound(s', s'.procs[pid]) by { hide FilesAfter, LocksAfter; }
    hide FilesAfter, LocksAfter, NextPc, Role;
    forall name | name in s'.locks ensures s'.locks[name] in s'.procs && Role(s'.procs[s'.locks[name]], name) {
      if s'.locks[name] == pid { OwnRoles(cfg, s, pid, proc, p, name); }
      else { OtherLocks(cfg, s, pid, proc, p, name); }
    }
  }

  lemma DoSound(cfg: Config, s: State, a: Action)
    requires Sound(s) && Do(cfg, s, a).Some?
    ensures Sound(Do(cfg, s, a).value)
  {
    match a {
      case Advance(pid) => StepSound(cfg, s, pid, s.procs[pid], s.procs[pid].todo[0]);
      case Edit(p, src) => assert forall name :: name !in s.locks;
      case _ =>
    }
  }

  lemma {:induction false} RunSound(cfg: Config, s: State, actions: seq<Action>)
    requires Sound(s) && Run(cfg, s, actions).Some?
    ensures Sound(Run(cfg, s, actions).value)
    decreases |actions|
  {
    hide Sound, Do;
    if actions != [] {
      DoSound(cfg, s, actions[0]);
      RunSound(cfg, Do(cfg, s, actions[0]).value, actions[1..]);
    }
  }

  // ----- progress -----

  predicate CanAdvance(cfg: Config, s: State, pid: Pid) { Do(cfg, s, Advance(pid)).Some? }

  /** A process only ever waits for a lock. */
  lemma WaitsForLock(cfg: Config, s: State, pid: Pid)
    requires Sound(s) && pid in s.procs && s.procs[pid].todo != [] && !CanAdvance(cfg, s, pid)
    ensures var wanted := LockTaken(s.procs[pid].pc, s.procs[pid].todo[0]);
      wanted.Some? && wanted.value in s.locks
  {
    assert ProcSound(s, s.procs[pid]) && s.procs[pid].todo[0] in s.procs[pid].todo;
    hide PkgLock, DataLock, FilesAfter, LocksAfter;
  }

  /** Whoever holds a lock that a process waits for can go on, or waits at a later point, or for a package
      whose name is shorter: a data lock can also be the package lock of such a package. */
  lemma Holder(cfg: Config, s: State, pid: Pid) returns (q: Pid)
    requires Sound(s) && pid in s.procs && s.procs[pid].todo != [] && !CanAdvance(cfg, s, pid)
    ensures q in s.procs && s.procs[q].todo != [] && !s.procs[q].pc.Ready?
    ensures CanAdvance(cfg, s, q) || s.procs[pid].pc.Ready?
      || (s.procs[pid].pc.InfoReleased? && |s.procs[q].todo[0]| < |s.procs[pid].todo[0]|)
  {
    WaitsForLock(cfg, s, pid);
    var p := s.procs[pid].todo[0];
    q := s.locks[LockTaken(s.procs[pid].pc, p).value];
    var k := s.procs[q].todo[0];
    NamesApart(p, k);
    NamesApart(k, p);
    assert Role(s.procs[q], LockTaken(s.procs[pid].pc, p).value);
    if s.procs[q].pc.HoldsInfo() || s.procs[q].pc.HoldsData() {
      if !CanAdvance(cfg, s, q) { WaitsForLock(cfg, s, q); }
    }
    hide CanAdvance, ObjectName, PkgLock, DataLock, Sound;
  }

  /** While any process has a package left, some process can take a step. */
  lemma {:induction false} SomeoneAdvances(cfg: Config, s: State, pid: Pid) returns (q: Pid)
    requires Sound(s) && pid in s.procs && s.procs[pid].todo != []
    ensures CanAdvance(cfg, s, q)
    decreases if s.procs[pid].pc.Ready? then 1 else 0, |s.procs[pid].todo[0]|
  {
    hide CanAdvance, Sound;
    q := pid;
    if !CanAdvance(cfg, s, q) {
      q := Holder(cfg, s, q);
      if !CanAdvance(cfg, s, q) { q := SomeoneAdvances(cfg, s, q); }
    }
  }

  /** No reachable state is stuck. */
  lemma NoDeadlock(cfg: Config, s0: State, actions: seq<Action>)
    requires Initial(cfg, s0) && Run(cfg, s0, actions).Some?
    ensures var s := Run(cfg, s0, actions).value;
      (exists pid :: pid in s.procs && s.procs[pid].todo != []) ==> exists q :: CanAdvance(cfg, s, q)
  {
    InitialSound(cfg, s0);
    RunSound(cfg, s0, actions);
    var s := Run(cfg, s0, actions).value;
    if pid :| pid in s.procs && s.procs[pid].todo != [] {
      var q := SomeoneAdvances(cfg, s, pid);
    }
  }
}
