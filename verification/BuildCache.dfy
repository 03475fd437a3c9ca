/** The package build cache shared by concurrent compiler processes, as a state machine:
    kclvm/runner/src/assembler.rs:305-389 and kclvm/config/src/cache.rs. Every file system operation
    and every lock operation is one step; any process may take the next one. */
module BuildCache {
  import opened Wrappers

  type Pid = nat

  /** A package path; the loader leaves an import of the empty path alone. */
  type Pkg = p: string | p != "" witness "a"

  // ----- sources -----

  predicate EndsWith(s: string, suffix: string)
  {
    |s| >= |suffix| && s[|s| - |suffix|..] == suffix
  }

  datatype KFile = KFile(name: string, text: string) {
    /** Files of a directory that the loader passes over (parser/src/lib.rs:632-637). */
    predicate Skipped() { EndsWith(name, "_test.k") || (name != "" && name[0] == '_') }
  }

  /** The files the loader takes. */
  function LoadedFiles(files: seq<KFile>): seq<KFile>
  {
    if files == [] then []
    else (if files[0].Skipped() then [] else [files[0]]) + LoadedFiles(files[1..])
  }

  function TextOf(files: seq<KFile>): string
  {
    if files == [] then "" else files[0].text + TextOf(files[1..])
  }

  /** Texts of a directory follow each other in the order of the files. */
  lemma {:induction false} FilesInOrder(a: seq<KFile>, b: seq<KFile>)
    ensures TextOf(a + b) == TextOf(a) + TextOf(b)
    ensures LoadedFiles(a + b) == LoadedFiles(a) + LoadedFiles(b)
    decreases |a|
  {
    hide KFile.Skipped;
    if a == [] {
      assert a + b == b;
    } else {
      var f, rest := a[0], a[1..];
      FilesInOrder(rest, b);
      assert (a + b)[0] == f && (a + b)[1..] == rest + b;
      assert f.text + (TextOf(rest) + TextOf(b)) == (f.text + TextOf(rest)) + TextOf(b);
      var taken := if f.Skipped() then [] else [f];
      assert taken + (LoadedFiles(rest) + LoadedFiles(b)) == (taken + LoadedFiles(rest)) + LoadedFiles(b);
    }
  }

  /** A file is passed over exactly when its name is some name and then `_test.k`, or an underscore and then some
      name. */
  lemma OneFile(f: KFile)
    ensures TextOf([f]) == f.text
    ensures (exists base :: f.name == base + "_test.k" || f.name == "_" + base) <==> LoadedFiles([f]) == []
    ensures LoadedFiles([f]) == [] || LoadedFiles([f]) == [f]
  {
    assert [f][1..] == [];
    if f.Skipped() {
      var n := f.name;
      if EndsWith(n, "_test.k") { assert n == n[..|n| - 7] + "_test.k"; } else { assert n == "_" + n[1..]; }
    }
    if base :| f.name == base + "_test.k" || f.name == "_" + base {
      assert f.name == base + "_test.k" ==> f.name[|f.name| - 7..] == "_test.k";
    }
  }

  predicate SkipsSome(files: seq<KFile>)
  {
    exists i | 0 <= i < |files| :: files[i].Skipped()
  }

  /** An external package: its text, and whether the run is given its name and place. One that is not
      comes from the vendor directory. */
  datatype Outside = Outside(named: bool, text: string)

  /** The sources of one package path: under the root a directory, as the list of its KCL files in the
      order of their names, and a single file; outside an external package. */
  datatype Source = Source(dir: Option<seq<KFile>>, file: Option<string>, outside: Option<Outside>) {
    predicate Inside() { dir.Some? || file.Some? }

    /** The loader finds something to compile. */
    predicate Present()
    {
      outside.Some? || if dir.Some? then LoadedFiles(dir.value) != [] else file.Some?
    }

    /** What the loader compiles: the directory when there is one (parser/src/lib.rs:602-609). */
    function Compiled(): string
    {
      if outside.Some? then outside.value.text
      else if dir.Some? then TextOf(LoadedFiles(dir.value))
      else if file.Some? then file.value else ""
    }

    /** What the cache digests: the single file when there is one, all KCL files of the directory
        otherwise (cache.rs:176-207). */
    function Digested(): string
    {
      if file.Some? then file.value else if dir.Some? then TextOf(dir.value) else ""
    }

    /** The digest is looked at before the cache is used (cache.rs:61-64). */
    predicate Checked() { Inside() || (outside.Some? && outside.value.named) }

    function Layout(): Layout
    {
      if outside.Some? then
        if Inside() then Shadowed else if outside.value.named then NamedOutside else VendoredOutside
      else if file.Some? then if dir.Some? then DirectoryAndFile else SingleFile
      else if dir.Some? && SkipsSome(dir.value) then SkippingDirectory else Directory
    }
  }

  datatype Layout =
    | Directory
    | SkippingDirectory                           // with files that the loader passes over
    | SingleFile
    | DirectoryAndFile
    | Shadowed                                    // external, with something at its path under the root
    | NamedOutside
    | VendoredOutside

  /** The key of a package in the digest file: the path that was digested. */
  datatype RealPath = DirPath(p: Pkg) | FilePath(p: Pkg)

  function RealPathOf(p: Pkg, src: Source): RealPath
  {
    if src.file.Some? then FilePath(p) else DirPath(p)
  }

  /** The digest function, the layouts each package may have over time, and the packages that a run may
      change by an override before it compiles them. */
  datatype Config = Config(digest: string -> string, layouts: Pkg -> set<Layout>, overridden: Pkg -> bool) {
    predicate Allowed(p: Pkg, src: Source) { src.Present() && src.Layout() in layouts(p) }
  }

  // ----- the cache directory -----

  /** What a file holds. A lock file is empty. */
  datatype Content = Object(text: string) | Info(entries: map<RealPath, string>) | Data | Empty

  type Files = map<string, Content>

  const INFO: Pkg := "info"
  const INFO_LOCK: Pkg := "info.lock"

  // The names of a package's files; the data file has the name of the package itself.
  function ObjectName(p: Pkg): Pkg { p + ".o" }
  function PkgLock(p: Pkg): Pkg { p + ".o.lock" }
  function DataLock(p: Pkg): Pkg { p + ".lock" }

  predicate HasData(files: Files, p: Pkg) { p in files && files[p].Data? }

  /** `read_info_cache`: a file that is not well formed counts as empty. */
  function InfoOf(files: Files): map<RealPath, string>
  {
    if INFO in files && files[INFO].Info? then files[INFO].entries else map[]
  }

  /** Opening a lock file creates it. */
  function Opened(files: Files, name: string): Files
  {
    if name in files then files else files[name := Empty]
  }

  // ----- processes -----

  /** Where a process is, for the package at the head of its list. */
  datatype Pc =
    | Ready                                       // between packages
    | Locked                                      // package lock taken
    | DataSeen                                    // a file with the name of the data file exists
    | InfoSeen(digest: string)                    // recorded digest read, without the info lock
    | Current                                     // digest equal to the one computed now, or not checked
    | DataLoaded                                  // object path read from the data file
    | Missed                                      // no usable cache
    | Cleaned                                     // old object removed
    | Emitted                                     // new object written
    | Digested(digest: string)                    // digest of the sources computed
    | InfoLocked(digest: string)
    | InfoCopied(digest: string, copy: map<RealPath, string>)
    | InfoWritten
    | InfoReleased
    | DataLocked
    | DataWritten
    | Finished                                    // object path known, package lock still held
  {
    predicate Looking() { Ready? || Locked? || DataSeen? || InfoSeen? || Current? || DataLoaded? }
    predicate HoldsInfo() { InfoLocked? || InfoCopied? || InfoWritten? }
    predicate HoldsData() { DataLocked? || DataWritten? }
    /** The object and its recorded digest may disagree. */
    predicate Rebuilding() { Emitted? || Digested? || InfoLocked? || InfoCopied? }
    /** On the way through a miss, until the data file is written. */
    predicate Building() { !Looking() && !DataWritten? && !Finished? }
  }

  /** `program` is what the process parsed at its start; `libs` are the packages whose object paths it
      has collected for linking. */
  datatype Proc = Proc(program: map<Pkg, string>, todo: seq<Pkg>, pc: Pc, libs: set<Pkg>)

  /** `locks` has the process that holds the lock of the file that now has the name. */
  datatype State = State(sources: map<Pkg, Source>, files: Files, locks: map<string, Pid>, procs: map<Pid, Proc>)

  datatype Action =
    | Start(pid: Pid, todo: seq<Pkg>, overrides: map<Pkg, string>)
    | Advance(pid: Pid)
    | Exit(pid: Pid)
    | Edit(p: Pkg, src: Source)

  predicate Initial(cfg: Config, s: State)
  {
    && s.files == map[] && s.locks == map[] && s.procs == map[]
    && forall p | p in s.sources :: cfg.Allowed(p, s.sources[p])
  }

  /** What a run compiles: the sources as they are, or as its overrides leave them. */
  function Program(sources: map<Pkg, Source>, todo: seq<Pkg>, overrides: map<Pkg, string>): map<Pkg, string>
    requires forall p | p in todo :: p in sources
  {
    map p | p in todo :: if p in overrides then overrides[p] else sources[p].Compiled()
  }

  predicate CanStart(cfg: Config, s: State, todo: seq<Pkg>, overrides: map<Pkg, string>)
  {
    && (forall p | p in todo :: p in s.sources && s.sources[p].Present())
    && (forall p | p in overrides :: cfg.overridden(p))
  }

  /** The state after an action; None when the action cannot be taken, such as a lock that is held. */
  function Do(cfg: Config, s: State, a: Action): Option<State>
  {
    match a
    case Start(pid, todo, overrides) =>
      if pid in s.procs || !CanStart(cfg, s, todo, overrides) then None
      else Some(s.(procs := s.procs[pid := Proc(Program(s.sources, todo, overrides), todo, Ready, {})]))
    case Exit(pid) =>
      if pid !in s.procs || s.procs[pid].todo != [] then None
      else Some(s.(procs := s.procs - {pid}))
    case Edit(p, src) =>
      if s.procs != map[] || p !in s.sources || !cfg.Allowed(p, src) then None
      else Some(s.(sources := s.sources[p := src]))
    case Advance(pid) =>
      if pid !in s.procs || s.procs[pid].todo == [] then None
      else
        var p := s.procs[pid].todo[0];
        if p in s.sources && p in s.procs[pid].program then Step(cfg, s, pid, s.procs[pid], p) else None
  }

  /** One step of `gen_libs` for package `p`: where it leads, and what it does to the files and locks. */
  function Step(cfg: Config, s: State, pid: Pid, proc: Proc, p: Pkg): Option<State>
    requires p in s.sources && proc.todo != [] && p in proc.program
  {
    match NextPc(cfg, s, proc.pc, p)
    case None => None
    case Some(pc') => Some(State(
      s.sources,
      FilesAfter(s, proc, p),
      LocksAfter(s.locks, pid, proc.pc, p),
      s.procs[pid := ProcAfter(proc, pc', p)]))
  }

  /** The lock a step takes. */
  function LockTaken(pc: Pc, p: Pkg): Option<string>
  {
    match pc
    case Ready => Some(PkgLock(p))
    case Digested(_) => Some(INFO_LOCK)
    case InfoReleased => Some(DataLock(p))
    case _ => None
  }

  /** The lock a step gives back. */
  function LockGiven(pc: Pc, p: Pkg): Option<string>
  {
    match pc
    case Finished => Some(PkgLock(p))
    case InfoWritten => Some(INFO_LOCK)
    case DataWritten => Some(DataLock(p))
    case _ => None
  }

  /** The next program point; None while a lock is held by another process. */
  function NextPc(cfg: Config, s: State, pc: Pc, p: Pkg): Option<Pc>
    requires p in s.sources
  {
    var src, info := s.sources[p], InfoOf(s.files);
    var path, now := RealPathOf(p, src), cfg.digest(src.Digested());
    if LockTaken(pc, p).Some? && LockTaken(pc, p).value in s.locks then None
    else Some(
      match pc
      case Ready => Locked
      case Locked => if p in s.files then DataSeen else Missed
      case DataSeen => if !src.Checked() then Current else if path in info then InfoSeen(info[path]) else Missed
      case InfoSeen(d) => if now == d then Current else Missed
      case Current => if HasData(s.files, p) then DataLoaded else Missed
      case DataLoaded => if ObjectName(p) in s.files then Finished else Missed
      case Missed => Cleaned
      case Cleaned => Emitted
      case Emitted => if src.Inside() then Digested(now) else InfoReleased
      case Digested(d) => InfoLocked(d)
      case InfoLocked(d) => InfoCopied(d, info)
      case InfoCopied(_, _) => InfoWritten
      case InfoWritten => InfoReleased
      case InfoReleased => DataLocked
      case DataLocked => DataWritten
      case DataWritten => Finished
      case Finished => Ready)
  }

  function FilesAfter(s: State, proc: Proc, p: Pkg): Files
    requires p in s.sources && p in proc.program
  {
    match proc.pc
    case Missed => s.files - {ObjectName(p)}
    case Cleaned => s.files[ObjectName(p) := Object(proc.program[p])]
    case InfoCopied(d, copy) => s.files[INFO := Info(copy[RealPathOf(p, s.sources[p]) := d])]
    case DataLocked => s.files[p := Data]
    case _ => if LockTaken(proc.pc, p).Some? then Opened(s.files, LockTaken(proc.pc, p).value) else s.files
  }

  /** A lock belongs to a file, not to a name. When the data file is renamed into its place, the name has a
      new file that nobody has locked. */
  function LocksAfter(locks: map<string, Pid>, pid: Pid, pc: Pc, p: Pkg): map<string, Pid>
  {
    if LockTaken(pc, p).Some? then locks[LockTaken(pc, p).value := pid]
    else if LockGiven(pc, p).Some? then Released(locks, pid, LockGiven(pc, p).value)
    else if pc.DataLocked? then locks - {p}
    else locks
  }

  function Released(locks: map<string, Pid>, pid: Pid, name: string): map<string, Pid>
  {
    if name in locks && locks[name] == pid then locks - {name} else locks
  }

  /** At the end the package's object path joins the libraries and the list moves on. */
  function ProcAfter(proc: Proc, pc': Pc, p: Pkg): Proc
    requires proc.todo != []
  {
    if proc.pc.Finished? then Proc(proc.program, proc.todo[1..], pc', proc.libs + {p})
    else proc.(pc := pc')
  }

  /** The state after a list of actions: any interleaving of any processes. */
  function Run(cfg: Config, s: State, actions: seq<Action>): Option<State>
    decreases |actions|
  {
    if actions == [] then Some(s)
    else
      match Do(cfg, s, actions[0])
      case Some(s') => Run(cfg, s', actions[1..])
      case None => None
  }

  /** A step that can be taken, with its process and package. */
  ghost predicate CanStep(cfg: Config, s: State, pid: Pid, proc: Proc, p: Pkg)
  {
    && pid in s.procs && s.procs[pid] == proc && proc.todo != [] && proc.todo[0] == p
    && p in s.sources && p in proc.program && NextPc(cfg, s, proc.pc, p).Some?
  }

  ghost function After(cfg: Config, s: State, pid: Pid, proc: Proc, p: Pkg): State
    requires CanStep(cfg, s, pid, proc, p)
  {
    Step(cfg, s, pid, proc, p).value
  }

  /** A step on the processes: the stepping one moves on, the others stay. */
  lemma AfterProcs(cfg: Config, s: State, pid: Pid, proc: Proc, p: Pkg)
    requires CanStep(cfg, s, pid, proc, p)
    ensures var s' := After(cfg, s, pid, proc, p);
      && s'.sources == s.sources && s'.procs.Keys == s.procs.Keys
      && (forall q | q in s.procs && q != pid :: s'.procs[q] == s.procs[q])
      && s'.procs[pid] == ProcAfter(proc, NextPc(cfg, s, proc.pc, p).value, p)
      && (proc.pc.Finished? ==> s'.procs[pid].pc.Ready?)
  {
    hide FilesAfter, LocksAfter;
  }

  lemma AfterFiles(cfg: Config, s: State, pid: Pid, proc: Proc, p: Pkg)
    requires CanStep(cfg, s, pid, proc, p)
    ensures var s' := After(cfg, s, pid, proc, p);
      s'.sources == s.sources && s'.files == FilesAfter(s, proc, p) && s'.locks == LocksAfter(s.locks, pid, proc.pc, p)
  {
    hide NextPc, FilesAfter, LocksAfter;
  }

  /** Which locks the next point may hold. */
  lemma NextHolds(cfg: Config, s: State, pc: Pc, p: Pkg)
    requires p in s.sources && NextPc(cfg, s, pc, p).Some?
    ensures var pc' := NextPc(cfg, s, pc, p).value;
      && ((pc.HoldsInfo() && !pc.InfoWritten?) || pc.Digested? <==> pc'.HoldsInfo())
      && (pc.DataLocked? || pc.InfoReleased? <==> pc'.HoldsData())
      && (pc'.Ready? <==> pc.Finished?)
  {
    hide PkgLock, DataLock;
  }

  predicate Working(s: State, pid: Pid) { pid in s.procs && !s.procs[pid].pc.Ready? && s.procs[pid].todo != [] }

  /** The package a working process is at. */
  predicate At(s: State, pid: Pid, p: Pkg) { Working(s, pid) && s.procs[pid].todo[0] == p }

  /** Every object path that a running process has collected names an object that was assembled from text
      with the digest of what the process compiles. */
  predicate Good(cfg: Config, s: State)
  {
    forall pid, p | pid in s.procs && p in s.procs[pid].libs :: Usable(cfg, s, s.procs[pid], p)
  }

  predicate Usable(cfg: Config, s: State, proc: Proc, p: Pkg)
  {
    && p in proc.program && ObjectName(p) in s.files && s.files[ObjectName(p)].Object?
    && cfg.digest(s.files[ObjectName(p)].text) == cfg.digest(proc.program[p])
  }

  // ----- names -----

  lemma NamesApart(p: Pkg, q: Pkg)
    ensures ObjectName(p) == ObjectName(q) ==> p == q
    ensures PkgLock(p) == PkgLock(q) ==> p == q
    ensures DataLock(p) == DataLock(q) ==> p == q
    ensures PkgLock(p) == DataLock(q) <==> q == ObjectName(p)
    ensures DataLock(p) == INFO_LOCK <==> p == INFO
    ensures PkgLock(p) != INFO_LOCK && ObjectName(p) != INFO && ObjectName(p) != INFO_LOCK
    ensures ObjectName(p) != PkgLock(q) && ObjectName(p) != DataLock(q)
    ensures INFO != PkgLock(p) && INFO != DataLock(p)
    ensures p != ObjectName(p) && p != PkgLock(p) && p != DataLock(p)
    ensures |ObjectName(p)| > |p|
  {
    SameEnd(p, q, ".o");
    SameEnd(p, q, ".o.lock");
    SameEnd(p, q, ".lock");
    LockOfObject(p, q);
    SameEnd(p, "info", ".lock");
    LastCharacters(p, q);
  }

  lemma SameEnd(a: string, b: string, c: string)
    ensures a + c == b + c <==> a == b
  {
    if a + c == b + c { assert a == (a + c)[..|a|] && b == (b + c)[..|b|]; }
  }

  lemma LockOfObject(p: string, q: string)
    ensures p + ".o.lock" == q + ".lock" <==> q == p + ".o"
  {
    assert p + ".o.lock" == (p + ".o") + ".lock";
    SameEnd(p + ".o", q, ".lock");
  }

  lemma LastCharacters(p: string, q: string)
    ensures p + ".o" != "info" && p + ".o" != "info.lock" && p + ".o.lock" != "info.lock"
    ensures p + ".o" != q + ".o.lock" && p + ".o" != q + ".lock"
    ensures "info" != p + ".o.lock" && "info" != p + ".lock"
  {
    var o := p + ".o";
    assert o[|o| - 1] == 'o' && o[|o| - 2] == '.';
    var l := p + ".o.lock";
    assert l[|l| - 1] == 'k' && l[|l| - 6] == 'o' && l[|l| - 7] == '.';
    assert (p + ".lock")[|p| + 4] == 'k' && (q + ".lock")[|q| + 4] == 'k' && (q + ".o.lock")[|q| + 6] == 'k';
    assert "info.lock"[8] == 'k' && "info.lock"[2] == 'f' && "info"[2] == 'f' && "info"[3] == 'o';
  }
}
