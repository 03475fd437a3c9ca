/** What a process has collected when it ends, and that it can always get there.
    kclvm/runner/src/assembler.rs:305-392, kclvm/config/src/cache.rs. */
module BuildCacheCompletion {
  import opened Wrappers
  import opened BuildCache
  import opened BuildCacheProgress

  // ----- nothing is left out -----

  function SetOf(pkgs: seq<Pkg>): set<Pkg> { set p | p in pkgs }

  /** The process has gone through the first part of its packages, and the rest is still on its list. */
  ghost predicate PartWay(proc: Proc, pkgs: seq<Pkg>)
  {
    exists n | 0 <= n <= |pkgs| :: proc.libs == SetOf(pkgs[..n]) && proc.todo == pkgs[n..]
  }

  lemma OneMore(pkgs: seq<Pkg>, n: nat)
    requires n < |pkgs|
    ensures SetOf(pkgs[..n + 1]) == SetOf(pkgs[..n]) + {pkgs[n]} && pkgs[n..][1..] == pkgs[n + 1..]
  {
    assert pkgs[..n + 1] == pkgs[..n] + [pkgs[n]];
  }

  /** What an action does to a process that goes on: nothing, or a package moves from its list to what it
      has collected. */
  lemma OneProcess(cfg: Config, s: State, a: Action, pid: Pid)
    requires pid in s.procs && a != Exit(pid) && Do(cfg, s, a).Some? && pid in Do(cfg, s, a).value.procs
    ensures var proc, proc' := s.procs[pid], Do(cfg, s, a).value.procs[pid];
      && proc'.program == proc.program
      && (|| (proc'.libs == proc.libs && proc'.todo == proc.todo)
          || (proc.todo != [] && proc'.libs == proc.libs + {proc.todo[0]} && proc'.todo == proc.todo[1..]))
  {
    hide NextPc, FilesAfter, LocksAfter, Program, CanStart;
  }

  lemma StillThere(cfg: Config, s: State, a: Action, pid: Pid)
    requires pid in s.procs && a != Exit(pid) && Do(cfg, s, a).Some?
    ensures pid in Do(cfg, s, a).value.procs
  {
    hide NextPc, FilesAfter, LocksAfter, Program, CanStart, ProcAfter;
  }

  lemma StepPartWay(cfg: Config, s: State, a: Action, pid: Pid, pkgs: seq<Pkg>)
    requires pid in s.procs && PartWay(s.procs[pid], pkgs) && a != Exit(pid) && Do(cfg, s, a).Some?
    ensures var s' := Do(cfg, s, a).value;
      pid in s'.procs && PartWay(s'.procs[pid], pkgs) && s'.procs[pid].program == s.procs[pid].program
  {
    hide Do;
    StillThere(cfg, s, a, pid);
    OneProcess(cfg, s, a, pid);
    var proc, proc' := s.procs[pid], Do(cfg, s, a).value.procs[pid];
    var n :| 0 <= n <= |pkgs| && proc.libs == SetOf(pkgs[..n]) && proc.todo == pkgs[n..];
    if proc'.todo != proc.todo {
      OneMore(pkgs, n);
      assert proc'.libs == SetOf(pkgs[..n + 1]) && proc'.todo == pkgs[n + 1..];
    }
  }

  lemma {:induction false} RunPartWay(cfg: Config, s: State, actions: seq<Action>, pid: Pid, pkgs: seq<Pkg>)
    requires pid in s.procs && PartWay(s.procs[pid], pkgs) && Exit(pid) !in actions && Run(cfg, s, actions).Some?
    ensures var s' := Run(cfg, s, actions).value;
      pid in s'.procs && PartWay(s'.procs[pid], pkgs) && s'.procs[pid].program == s.procs[pid].program
    decreases |actions|
  {
    hide PartWay, Do;
    if actions != [] {
      StepPartWay(cfg, s, actions[0], pid, pkgs);
      RunPartWay(cfg, Do(cfg, s, actions[0]).value, actions[1..], pid, pkgs);
    }
  }

  predicate Distinct(pkgs: seq<Pkg>) { forall i, j | 0 <= i < j < |pkgs| :: pkgs[i] != pkgs[j] }

  lemma StartedPartWay(cfg: Config, s: State, pid: Pid, pkgs: seq<Pkg>, overrides: map<Pkg, string>)
    requires Do(cfg, s, Start(pid, pkgs, overrides)).Some?
    ensures var s' := Do(cfg, s, Start(pid, pkgs, overrides)).value;
      pid in s'.procs && PartWay(s'.procs[pid], pkgs) && s'.procs[pid].program.Keys == SetOf(pkgs)
  {
    var proc := Do(cfg, s, Start(pid, pkgs, overrides)).value.procs[pid];
    assert proc.libs == SetOf(pkgs[..0]) && proc.todo == pkgs[0..];
  }

  /** A run in which process `pid` is started with the packages and has not ended. */
  ghost predicate Runs(cfg: Config, s: State, pid: Pid, pkgs: seq<Pkg>, overrides: map<Pkg, string>,
                       actions: seq<Action>, s': State)
  {
    && Do(cfg, s, Start(pid, pkgs, overrides)).Some? && Exit(pid) !in actions
    && Run(cfg, Do(cfg, s, Start(pid, pkgs, overrides)).value, actions) == Some(s')
  }

  /** At any point of a run, whatever other processes do, what a process has collected and what is still on its
      list are together the packages it was started with, and it compiles exactly these. A process can end if and
      only if it has collected every one of them. */
  lemma EndsWithEverything(cfg: Config, s: State, pid: Pid, pkgs: seq<Pkg>, overrides: map<Pkg, string>,
                           actions: seq<Action>, s': State)
    requires Runs(cfg, s, pid, pkgs, overrides, actions, s') && Distinct(pkgs)
    ensures pid in s'.procs
    ensures s'.procs[pid].libs + SetOf(s'.procs[pid].todo) == SetOf(pkgs) == s'.procs[pid].program.Keys
    ensures s'.procs[pid].libs !! SetOf(s'.procs[pid].todo)
    ensures Do(cfg, s', Exit(pid)).Some? <==> s'.procs[pid].libs == SetOf(pkgs)
  {
    hide Do, Run, SetOf, Distinct;
    StartedPartWay(cfg, s, pid, pkgs, overrides);
    RunPartWay(cfg, Do(cfg, s, Start(pid, pkgs, overrides)).value, actions, pid, pkgs);
    var proc := s'.procs[pid];
    var n :| 0 <= n <= |pkgs| && proc.libs == SetOf(pkgs[..n]) && proc.todo == pkgs[n..];
    SplitSet(pkgs, n);
    MayExit(cfg, s', pid);
  }

  lemma MayExit(cfg: Config, s: State, pid: Pid)
    ensures Do(cfg, s, Exit(pid)).Some? <==> pid in s.procs && s.procs[pid].todo == []
  {
  }

  lemma SplitSet(pkgs: seq<Pkg>, n: nat)
    requires n <= |pkgs| && Distinct(pkgs)
    ensures SetOf(pkgs[..n]) + SetOf(pkgs[n..]) == SetOf(pkgs) && SetOf(pkgs[..n]) !! SetOf(pkgs[n..])
    ensures SetOf(pkgs[..n]) == SetOf(pkgs) <==> n == |pkgs|
  {
    assert pkgs == pkgs[..n] + pkgs[n..];
    if n < |pkgs| { assert pkgs[n] in SetOf(pkgs) && pkgs[n] !in SetOf(pkgs[..n]); }
  }

  // ----- the end can be reached -----

  /** How many steps a process may still take for the package it is at. */
  function StepsLeft(pc: Pc): nat
  {
    match pc
    case Ready => 17 case Locked => 16 case DataSeen => 15 case InfoSeen(_) => 14 case Current => 13
    case DataLoaded => 12 case Missed => 11 case Cleaned => 10 case Emitted => 9 case Digested(_) => 8
    case InfoLocked(_) => 7 case InfoCopied(_, _) => 6 case InfoWritten => 5 case InfoReleased => 4
    case DataLocked => 3 case DataWritten => 2 case Finished => 1
  }

  function Work(proc: Proc): nat
  {
    if proc.todo == [] then 0 else 17 * (|proc.todo| - 1) + StepsLeft(proc.pc)
  }

  /** Every step of a process brings it closer to its end. */
  lemma StepLessWork(cfg: Config, s: State, pid: Pid)
    requires Do(cfg, s, Advance(pid)).Some?
    ensures var s' := Do(cfg, s, Advance(pid)).value;
      && s'.procs.Keys == s.procs.Keys && Work(s'.procs[pid]) < Work(s.procs[pid])
      && forall q | q in s.procs && q != pid :: s'.procs[q] == s.procs[q]
  {
    hide FilesAfter, LocksAfter, HasData, LockTaken;
  }

  function WorkOf(procs: map<Pid, Proc>, pids: seq<Pid>): nat
  {
    if pids == [] then 0 else (if pids[0] in procs then Work(procs[pids[0]]) else 0) + WorkOf(procs, pids[1..])
  }

  lemma {:induction false} LessInAll(procs: map<Pid, Proc>, procs': map<Pid, Proc>, pids: seq<Pid>, pid: Pid)
    requires procs'.Keys == procs.Keys && pid in procs && Work(procs'[pid]) < Work(procs[pid])
    requires forall q | q in procs && q != pid :: procs'[q] == procs[q]
    ensures WorkOf(procs', pids) <= WorkOf(procs, pids)
    ensures pid in pids ==> WorkOf(procs', pids) < WorkOf(procs, pids)
    decreases |pids|
  {
    hide Work;
    if pids != [] { LessInAll(procs, procs', pids[1..], pid); }
  }

  /** The processes in some order. */
  lemma {:induction false} Listed(pids: set<Pid>) returns (order: seq<Pid>)
    ensures forall pid :: pid in order <==> pid in pids
  {
    order := [];
    if pids != {} {
      var pid :| pid in pids;
      order := Listed(pids - {pid});
      order := [pid] + order;
    }
  }

  /** Only steps of processes, no starts, ends or edits. */
  predicate OnlySteps(actions: seq<Action>) { forall i | 0 <= i < |actions| :: actions[i].Advance? }

  lemma {:induction false} StepsToTheEnd(cfg: Config, s: State, order: seq<Pid>)
    returns (actions: seq<Action>, s': State)
    requires Sound(s) && forall pid :: pid in order <==> pid in s.procs
    ensures OnlySteps(actions) && Run(cfg, s, actions) == Some(s') && s'.procs.Keys == s.procs.Keys
    ensures forall pid | pid in s'.procs :: s'.procs[pid].todo == []
    decreases WorkOf(s.procs, order)
  {
    hide Sound, Do, WorkOf;
    actions, s' := [], s;
    if pid :| pid in s.procs && s.procs[pid].todo != [] {
      var q := SomeoneAdvances(cfg, s, pid);
      var s1 := Do(cfg, s, Advance(q)).value;
      DoSound(cfg, s, Advance(q));
      StepLessWork(cfg, s, q);
      StepsItself(cfg, s, q);
      LessInAll(s.procs, s1.procs, order, q);
      actions, s' := StepsToTheEnd(cfg, s1, order);
      actions := [Advance(q)] + actions;
    }
  }

  lemma StepsItself(cfg: Config, s: State, pid: Pid)
    requires Do(cfg, s, Advance(pid)).Some?
    ensures pid in s.procs
  {
  }

  /** From every reachable state all processes can go on to their ends, without any help. */
  lemma AllCanEnd(cfg: Config, s0: State, actions: seq<Action>) returns (more: seq<Action>, s': State)
    requires Initial(cfg, s0) && Run(cfg, s0, actions).Some?
    ensures OnlySteps(more) && Run(cfg, Run(cfg, s0, actions).value, more) == Some(s')
    ensures s'.procs.Keys == Run(cfg, s0, actions).value.procs.Keys
    ensures forall pid | pid in s'.procs :: Do(cfg, s', Exit(pid)).Some?
  {
    hide Run, Sound;
    InitialSound(cfg, s0);
    RunSound(cfg, s0, actions);
    var s := Run(cfg, s0, actions).value;
    var order := Listed(s.procs.Keys);
    more, s' := StepsToTheEnd(cfg, s, order);
  }

  /** No run of steps alone goes on for ever: there are at most 17 for each package on the lists. */
  lemma {:induction false} StepsAreBounded(cfg: Config, s: State, order: seq<Pid>, actions: seq<Action>)
    requires OnlySteps(actions) && Run(cfg, s, actions).Some? && forall pid :: pid in order <==> pid in s.procs
    ensures |actions| <= WorkOf(s.procs, order)
    decreases |actions|
  {
    hide Do, WorkOf;
    if actions != [] {
      var pid := actions[0].pid;
      StepLessWork(cfg, s, pid);
      StepsItself(cfg, s, pid);
      var s1 := Do(cfg, s, actions[0]).value;
      LessInAll(s.procs, s1.procs, order, pid);
      StepsAreBounded(cfg, s1, order, actions[1..]);
    }
  }
  // ----- when the cache is used -----

  /** All that a hit needs: a data file, a recorded digest that is the digest of the sources now, unless the package
      is not checked, and the object. */
  predicate Hit(cfg: Config, s: State, p: Pkg)
    requires p in s.sources
  {
    var src, info := s.sources[p], InfoOf(s.files);
    && HasData(s.files, p) && ObjectName(p) in s.files
    && (src.Checked() ==>
          RealPathOf(p, src) in info && info[RealPathOf(p, src)] == cfg.digest(src.Digested()))
  }

  /** The process has its package lock and has not decided yet. */
  predicate Deciding(pc: Pc) { pc.Locked? || pc.DataSeen? || pc.InfoSeen? || pc.Current? || pc.DataLoaded? }

  /** What it has seen so far is still there. */
  predicate Seen(cfg: Config, s: State, p: Pkg, pc: Pc)
    requires p in s.sources
  {
    var src, info := s.sources[p], InfoOf(s.files);
    var path := RealPathOf(p, src);
    match pc
    case Locked => true
    case DataSeen => p in s.files
    case InfoSeen(d) => p in s.files && src.Checked() && path in info && info[path] == d
    case Current => p in s.files && (src.Checked() ==> path in info && info[path] == cfg.digest(src.Digested()))
    case DataLoaded =>
      HasData(s.files, p) && (src.Checked() ==> path in info && info[path] == cfg.digest(src.Digested()))
    case _ => false
  }

  lemma DecidingStep(cfg: Config, s: State, pid: Pid, p: Pkg)
    requires Sound(s) && At(s, pid, p) && Deciding(s.procs[pid].pc)
    requires p in s.sources && Seen(cfg, s, p, s.procs[pid].pc)
    ensures Do(cfg, s, Advance(pid)).Some?
    ensures var s' := Do(cfg, s, Advance(pid)).value;
      && s'.sources == s.sources && s'.files == s.files && At(s', pid, p)
      && (Hit(cfg, s, p) ==> s'.procs[pid].pc.Finished? || Deciding(s'.procs[pid].pc))
      && (if Deciding(s'.procs[pid].pc) then Seen(cfg, s, p, s'.procs[pid].pc)
          else if s'.procs[pid].pc.Finished? then Hit(cfg, s, p) else s'.procs[pid].pc.Missed? && !Hit(cfg, s, p))
  {
    assert ProcSound(s, s.procs[pid]) && p in s.procs[pid].todo;
    hide ObjectName, PkgLock, DataLock, LocksAfter, Sound;
  }

  /** A process alone, from where it has locked its package: it takes the object from the cache if and only if all
      that a hit needs is there; otherwise it goes on to build. No file changes until then. */
  lemma {:induction false} LooksUp(cfg: Config, s: State, pid: Pid, p: Pkg) returns (actions: seq<Action>, s': State)
    requires Sound(s) && At(s, pid, p) && Deciding(s.procs[pid].pc)
    requires p in s.sources && Seen(cfg, s, p, s.procs[pid].pc)
    ensures Run(cfg, s, actions) == Some(s') && (forall i | 0 <= i < |actions| :: actions[i] == Advance(pid))
    ensures At(s', pid, p) && s'.files == s.files && s'.sources == s.sources
    ensures s'.procs[pid].pc == if Hit(cfg, s, p) then Finished else Missed
    decreases StepsLeft(s.procs[pid].pc)
  {
    hide Do, Sound, Seen, Hit, At;
    DecidingStep(cfg, s, pid, p);
    var s1 := Do(cfg, s, Advance(pid)).value;
    DoSound(cfg, s, Advance(pid));
    Decides(cfg, s, pid);
    actions, s' := [Advance(pid)], s1;
    assert Run(cfg, s1, []) == Some(s1);
    if Deciding(s1.procs[pid].pc) {
      SameHit(cfg, s, s1, p, s1.procs[pid].pc);
      var more;
      more, s' := LooksUp(cfg, s1, pid, p);
      actions := [Advance(pid)] + more;
      assert actions[1..] == more;
    }
  }

  lemma SameHit(cfg: Config, s: State, s1: State, p: Pkg, pc: Pc)
    requires p in s.sources && s1.sources == s.sources && s1.files == s.files
    ensures Hit(cfg, s1, p) == Hit(cfg, s, p) && Seen(cfg, s1, p, pc) == Seen(cfg, s, p, pc)
  {
  }

  lemma Decides(cfg: Config, s: State, pid: Pid)
    requires Do(cfg, s, Advance(pid)).Some? && Deciding(s.procs[pid].pc)
    ensures pid in Do(cfg, s, Advance(pid)).value.procs
    ensures StepsLeft(Do(cfg, s, Advance(pid)).value.procs[pid].pc) < StepsLeft(s.procs[pid].pc)
  {
    hide FilesAfter, LocksAfter, HasData;
  }
}
