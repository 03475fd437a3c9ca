/** The depth-first package loader, kclvm/parser/src/lib.rs:257-576. */
module Loader {
  import opened Wrappers
  import opened LoaderSpec

  class Loader {
    const world: World
    var missingPkgs: seq<string>
    /** The paths reported with a CannotFindModule diagnostic. */
    var diags: seq<string>
    /** The `pkgs` map that the code passes along by mutable reference. */
    var pkgs: Packages
    /** For each loaded package other than the main one, the request that found it. */
    ghost var requests: map<string, Request>
    /** Every file parsed, with the package it was parsed for. */
    ghost var log: seq<(string, string)>

    ghost function Now(): State
      reads this
    {
      State(pkgs, missingPkgs, diags, requests, log)
    }

    constructor (world: World)
      ensures this.world == world && missingPkgs == [] && diags == [] && pkgs == map[] && requests == map[] && log == []
    {
      this.world := world;
      missingPkgs, diags, pkgs, requests, log := [], [], map[], map[], [];
    }

    /** `parse_file_with_session` on a file; the log is the model's own. */
    method ParseFile(filename: string, forPkg: string) returns (r: Result<Module, string>)
      modifies this`log
      ensures r.Ok? <==> filename in world.sources
      ensures r.Ok? ==> r.value == Module(filename, MAIN_PKG, MAIN_PKG, world.sources[filename])
      ensures r.Ok? ==> log == old(log) + [(forPkg, filename)]
    {
      if filename !in world.sources { return Err("Failed to load KCL file"); }
      log := log + [(forPkg, filename)];
      return Ok(Module(filename, MAIN_PKG, MAIN_PKG, world.sources[filename]));
    }

    method FixRelImportPath(pkgroot: string, m: Module) returns (m': Module)
      ensures m' == m.(body := FixedBody(world, pkgroot, m.filename, m.body))
    {
      m' := m;
      for j := 0 to |m.body|
        invariant m'.filename == m.filename && m' == m.(body := m'.body) && |m'.body| == |m.body|
        invariant forall i | 0 <= i < |m.body| ::
          m'.body[i] == if i < j then FixedStmt(world, pkgroot, m.filename, m.body[i]) else m.body[i]
      {
        match m'.body[j] {
          case Import(spec) =>
            var path := FixPath(world, pkgroot, m.filename, spec.path);
            m' := m'.(body := m'.body[j := Import(spec.(path := path))]);
          case Other(_) =>
        }
      }
    }

    method FindPackages(req: Request) returns (r: Result<Option<PkgInfo>, string>)
      modifies this`diags
      ensures r == Find(world, req)
      ensures diags == if r == Ok(None) then old(diags) + [req.path] else old(diags)
    {
      var isInternal := IsInternalPkg(world, req);
      if isInternal.Err? { return Err(isInternal.error); }
      var isExternal := IsExternalPkg(world, req.path);
      if isExternal.Err? { return Err(isExternal.error); }
      if isExternal.value.Some? && isInternal.value.Some? {
        diags := diags + [req.path];
        return Ok(None);
      }
      var found := if isInternal.value.Some? then isInternal.value else isExternal.value;
      if found.None? { diags := diags + [req.path]; }
      return Ok(found);
    }

    method LoadMain(prog: Program) returns (r: Result<(), string>)
      requires pkgs == map[] && missingPkgs == [] && diags == [] && requests == map[] && log == []
      modifies this
      ensures r.Ok? ==> Loaded(world, prog, Now())
      ensures MainReadable(world, prog) && Loadable(world) ==> r.Ok?
    {
      hide Loaded, Valid, SettledModule, Grown, NewFromModules, FixedBody;
      if prog.kFiles == [] { return Err("No input KCL files"); }
      var pkgFiles, srcs := ParseMain(prog);
      if pkgFiles.Err? { return Err(pkgFiles.error); }

      // An empty list marks the main package as being loaded.
      pkgs := pkgs[MAIN_PKG := []];
      ghost var start := Now();
      MainFilesAsked(world, prog, pkgFiles.value, srcs);
      ValidStart(world, prog, start);

      var walked := LoadImportPackage(prog.root, MAIN_PKG, pkgFiles.value, srcs, prog);
      if walked.Err? { return Err(walked.error); }

      // The complete modules replace the empty list.
      ghost var complete := Now();
      pkgs := pkgs[MAIN_PKG := walked.value];
      MainSettled(world, prog, srcs, pkgFiles.value, walked.value, complete.Now());
      LoadedFromValid(world, prog, start, complete, walked.value);
      assert Now() == complete.(pkgs := pkgs);
      return Ok(());
    }

    /** The file loop of `_load_main`. */
    method ParseMain(prog: Program) returns (r: Result<seq<Module>, string>, ghost srcs: seq<seq<Stmt>>)
      requires log == []
      modifies this`log
      ensures r.Ok? ==> ParsedMain(world, prog, r.value, srcs) && FixedModules(world, prog.root, r.value, srcs)
      ensures r.Ok? ==> forall k :: FilesParsed(log, k) == if k == MAIN_PKG then prog.kFiles else []
      ensures MainReadable(world, prog) ==> r.Ok?
    {
      hide FilesParsed, FixedBody, MainBody, HasMainBody;
      NothingParsed();
      var pkgFiles := [];
      srcs := [];
      for i := 0 to |prog.kFiles|
        invariant forall k :: FilesParsed(log, k) == if k == MAIN_PKG then prog.kFiles[..i] else []
        invariant |pkgFiles| == |srcs| == i
        invariant forall j | 0 <= j < i ::
          && HasMainBody(world, prog, j) && srcs[j] == MainBody(world, prog, j)
          && pkgFiles[j] == Module(prog.kFiles[j], MAIN_PKG, MAIN_PKG,
                                   FixedBody(world, prog.root, prog.kFiles[j], srcs[j]))
      {
        FilesParsedPush(log, MAIN_PKG, prog.kFiles[i]);
        var m: Module;
        if i < |prog.codes| {
          m := Module(prog.kFiles[i], MAIN_PKG, MAIN_PKG, prog.codes[i]);
          log := log + [(MAIN_PKG, prog.kFiles[i])];
        } else {
          var parsed := ParseFile(prog.kFiles[i], MAIN_PKG);
          NeedsFile(world, prog, i);
          if parsed.Err? { return Err(parsed.error), srcs; }
          m := parsed.value;
        }
        IsMainBody(world, prog, i, m.body);
        srcs := srcs + [m.body];
        m := FixRelImportPath(prog.root, m);
        pkgFiles := pkgFiles + [m];
      }
      assert prog.kFiles[..|prog.kFiles|] == prog.kFiles;
      return Ok(pkgFiles), srcs;
    }

    /** Walks the imports of one package's modules, loading what they name and rewriting them. */
    method LoadImportPackage(pkgroot: string, pkgName: string, pkg: seq<Module>,
                             ghost srcs: seq<seq<Stmt>>, ghost prog: Program)
      returns (r: Result<seq<Module>, string>)
      requires Valid(world, prog, Now()) && FixedModules(world, pkgroot, pkg, srcs)
      requires AllAsked(world, prog, pkgName, pkgroot, pkg, srcs)
      modifies this
      ensures r.Ok? ==> Valid(world, prog, Now()) && Grown(old(Now()), Now())
      ensures r.Ok? ==> SettledModules(world, pkgName, pkgroot, srcs, pkg, r.value, Now().Now())
      ensures r.Ok? ==> NewFromModules(old(pkgs), pkgs, r.value)
      ensures !world.loadPackages ==> pkgs == old(pkgs)
      ensures Loadable(world) ==> r.Ok?
      decreases |PkgPaths(world) - pkgs.Keys|, 2
    {
      hide Loadable, Valid, Grown, NewFromModules, NewFromBody, SettledModule, FixedBody, PkgPaths, FileAsked;
      ghost var start := Now();
      GrownSelf(start);
      var mods := [];
      for i := 0 to |pkg|
        invariant Valid(world, prog, Now()) && Grown(start, Now())
        invariant SettledModules(world, pkgName, pkgroot, srcs[..i], pkg[..i], mods, Now().Now()) && |mods| == i
        invariant NewFromModules(start.pkgs, pkgs, mods)
        invariant !world.loadPackages ==> pkgs == start.pkgs
      {
        ghost var before := Now();
        Shrinks(PkgPaths(world), start, before);
        var loaded := LoadImportsOfModule(pkgroot, pkgName, pkg[i], srcs[i], prog);
        if loaded.Err? { return Err(loaded.error); }
        GrownTwice(start, before, Now());
        NewFromModulesStep(start, before, Now(), mods, loaded.value);
        SettledModulesStep(world, pkgName, pkgroot, srcs, pkg, mods, loaded.value, before, Now());
        mods := mods + [loaded.value];
      }
      assert srcs[..|pkg|] == srcs && pkg[..|pkg|] == pkg;
      return Ok(mods);
    }

    /** The inner loop of `load_import_package`: the statements of one module. */
    method LoadImportsOfModule(pkgroot: string, pkgName: string, m: Module,
                               ghost src: seq<Stmt>, ghost prog: Program)
      returns (r: Result<Module, string>)
      requires Valid(world, prog, Now()) && m.body == FixedBody(world, pkgroot, m.filename, src)
      requires FileAsked(world, prog, pkgName, pkgroot, m.filename, src)
      modifies this
      ensures r.Ok? ==> Valid(world, prog, Now()) && Grown(old(Now()), Now())
      ensures r.Ok? ==> r.value == m.(body := r.value.body)
      ensures r.Ok? ==> SettledModule(world, pkgName, pkgroot, src, r.value, Now().Now())
      ensures r.Ok? ==> NewFromBody(old(pkgs), pkgs, r.value.body)
      ensures !world.loadPackages ==> pkgs == old(pkgs)
      ensures Loadable(world) ==> r.Ok?
      decreases |PkgPaths(world) - pkgs.Keys|, 1
    {
      hide Loadable, Valid, Grown, NewFromBody, NewFrom, SettledModule, SettledStmt, FixedStmt, PkgPaths, FileAsked;
      ghost var start := Now();
      GrownSelf(start);
      SettledNothing(world, pkgName, pkgroot, m.(body := []), start.Now());
      assert src[..0] == [];
      var body := [];
      for j := 0 to |m.body|
        invariant Valid(world, prog, Now()) && Grown(start, Now())
        invariant SettledModule(world, pkgName, pkgroot, src[..j], m.(body := body), Now().Now()) && |body| == j
        invariant NewFromBody(start.pkgs, pkgs, body)
        invariant !world.loadPackages ==> pkgs == start.pkgs
      {
        ghost var before := Now();
        Shrinks(PkgPaths(world), start, before);
        StmtAsked(world, prog, pkgName, pkgroot, m.filename, src, src[j]);
        var s := LoadImport(pkgroot, pkgName, m.filename, m.body[j], src[j], prog);
        if s.Err? { return Err(s.error); }
        GrownTwice(start, before, Now());
        NewFromBodyStep(start, before, Now(), body, s.value);
        SettledModuleStep(world, pkgName, pkgroot, src, m.(body := body), s.value, before, Now());
        body := body + [s.value];
      }
      assert src[..|m.body|] == src;
      return Ok(m.(body := body));
    }

    /** The body of the loop: an import is fixed, loaded, and named after the package it found. */
    method LoadImport(pkgroot: string, pkgName: string, filename: string, s: Stmt,
                      ghost src: Stmt, ghost prog: Program) returns (r: Result<Stmt, string>)
      requires Valid(world, prog, Now()) && s == FixedStmt(world, pkgroot, filename, src)
      requires FileAsked(world, prog, pkgName, pkgroot, filename, [src])
      modifies this
      ensures r.Ok? ==> Valid(world, prog, Now()) && Grown(old(Now()), Now())
      ensures r.Ok? ==> SettledStmt(world, pkgName, pkgroot, filename, src, r.value, Now().Now())
      ensures r.Ok? ==> pkgs == old(pkgs) || (r.value.Import? && NewFrom(old(pkgs), pkgs, r.value.spec.path))
      ensures !world.loadPackages ==> pkgs == old(pkgs)
      ensures Loadable(world) ==> r.Ok?
      decreases |PkgPaths(world) - pkgs.Keys|, 0, 2
    {
      hide Loadable, Valid, Grown, NewFrom, Find, FixPath;
      match s {
        case Other(_) =>
          GrownSelf(Now());
          return Ok(s);
        case Import(spec) =>
          var path := FixPath(world, pkgroot, filename, spec.path);
          var req := Request(pkgName, pkgroot, path);
          var loaded := LoadPackage(req, prog);
          if loaded.Err? { return Err(loaded.error); }
          var spec' := spec.(path := path, pkgName := pkgName);
          if loaded.value.Some? {
            var info := loaded.value.value;
            spec' := spec'.(path := info.pkgPath, pkgName := info.pkgName);
            assert Finds(world, req, info) && NamesPackage(spec', info);
          }
          return Ok(Import(spec'));
      }
    }

    method LoadPackage(req: Request, ghost prog: Program) returns (r: Result<Option<PkgInfo>, string>)
      requires Valid(world, prog, Now()) && Asked(world, prog, req)
      modifies this
      ensures r.Ok? ==> Valid(world, prog, Now()) && Grown(old(Now()), Now())
      ensures r.Ok? && r.value.None? ==> pkgs == old(pkgs)
      ensures r.Ok? && r.value.None? && world.loadPackages ==> LeftAlone(world, req, Now().Now())
      ensures r.Ok? && r.value.Some? ==>
        && world.loadPackages && Finds(world, req, r.value.value) && r.value.value.pkgPath in pkgs
        && NewFrom(old(pkgs), pkgs, r.value.value.pkgPath)
        && MayLookUp(world, req.path)
      ensures r.Ok? && world.loadPackages ==>
        r.value == if SkipsLookup(world, req.path, old(Now().Now())) then None
                   else LookedUp(world, req, old(pkgs).Keys)
      ensures !world.loadPackages ==> pkgs == old(pkgs)
      ensures Loadable(world) ==> r.Ok?
      decreases |PkgPaths(world) - pkgs.Keys|, 0, 1
    {
      hide Valid, Find, FixPath, Loadable, Grown, NewFrom;
      ghost var start := Now();
      GrownSelf(start);
      NothingNew(pkgs);
      MainIsKnown(world, prog, start);
      if Loadable(world) { FindsReadable(world, req); }
      if !world.loadPackages { return Ok(None); }
      if req.path == "" { return Ok(None); }
      if req.path in pkgs { return Ok(None); }
      if req.path in missingPkgs { return Ok(None); }

      if IsPlugin(req.path) {
        if !world.loadPlugins {
          diags := diags + [req.path];
          assert Now() == start.(diags := diags);
          ValidAfterDiag(world, prog, start, req.path);
        }
        return Ok(None);
      }
      if req.path in world.builtins { return Ok(None); }

      var found := FindPackages(req);
      if found.Err? { return Err(found.error); }
      if found.value.None? {
        assert FindsNothing(world, req) && Now() == start.(diags := diags);
        ValidAfterDiag(world, prog, start, req.path);
        return Ok(None);
      }
      var info := found.value.value;
      assert Finds(world, req, info) && Now() == start;

      // A circular import: the package is known.
      if info.pkgPath in pkgs { return Ok(Some(info)); }

      if info.kFiles == [] {
        missingPkgs := missingPkgs + [req.path];
        assert Now() == start.(missing := missingPkgs);
        ValidAfterMissing(world, prog, start, req.path);
        return Ok(None);
      }

      var walked := WalkPackage(req, info, prog);
      if walked.Err? { return Err(walked.error); }
      return Ok(Some(info));
    }

    /** The end of `load_package`: parse the files, mark the package, walk its imports. */
    method WalkPackage(req: Request, info: PkgInfo, ghost prog: Program) returns (r: Result<(), string>)
      requires Valid(world, prog, Now()) && Made(world, prog, req) && world.loadPackages
      requires Finds(world, req, info) && info.kFiles != [] && info.pkgPath !in pkgs
      modifies this
      ensures r.Ok? ==> Valid(world, prog, Now()) && Grown(old(Now()), Now())
      ensures r.Ok? ==> info.pkgPath in pkgs && NewFrom(old(pkgs), pkgs, info.pkgPath)
      ensures Loadable(world) ==> r.Ok?
      decreases |PkgPaths(world) - pkgs.Keys|, 0, 0
    {
      hide Loadable, Valid, Find, FixPath, LogsPackage, Grown, NewFrom, NewFromModules, ParsedFrom, FixedModules,
        SettledModules;
      ghost var start := Now();
      if Loadable(world) { FindsReadable(world, req); }
      var pkgFiles, srcs := ParsePackage(info);
      if pkgFiles.Err? { return Err(pkgFiles.error); }

      // An empty list marks the package as being loaded.
      AskedByName(world, prog, req);
      FoundPathsAreFinite(world, req, info);
      ShrinksStrictly(PkgPaths(world), pkgs, info.pkgPath);
      pkgs := pkgs[info.pkgPath := []];
      requests := requests[info.pkgPath := req];
      ghost var marked := Now();
      ValidAfterMark(world, prog, start, marked, req, info);

      PkgFilesAsked(world, prog, req, info, pkgFiles.value, srcs);
      var walked := LoadImportPackage(info.pkgRoot, info.pkgName, pkgFiles.value, srcs, prog);
      if walked.Err? { return Err(walked.error); }

      // The complete modules replace the empty list.
      ghost var complete := Now();
      pkgs := pkgs[info.pkgPath := walked.value];
      PackageComplete(world, prog, start, marked, complete, Now(), req, info, srcs, pkgFiles.value, walked.value);
      return Ok(());
    }

    /** The file loop of `load_package`. */
    method ParsePackage(info: PkgInfo) returns (r: Result<seq<Module>, string>, ghost srcs: seq<seq<Stmt>>)
      modifies this`log
      ensures r.Ok? ==> ParsedFrom(world, info, r.value, srcs) && FixedModules(world, info.pkgRoot, r.value, srcs)
      ensures r.Ok? ==> LogsPackage(old(log), log, info)
      ensures (forall f | f in info.kFiles :: f in world.sources) ==> r.Ok?
    {
      hide FilesParsed, FixedBody;
      var pkgFiles := [];
      srcs := [];
      for i := 0 to |info.kFiles|
        invariant forall k ::
          FilesParsed(log, k) == FilesParsed(old(log), k) + if k == info.pkgPath then info.kFiles[..i] else []
        invariant |pkgFiles| == |srcs| == i
        invariant forall j | 0 <= j < i ::
          && info.kFiles[j] in world.sources && srcs[j] == world.sources[info.kFiles[j]]
          && pkgFiles[j] == Module(info.kFiles[j], info.pkgPath, "",
                                   FixedBody(world, info.pkgRoot, info.kFiles[j], srcs[j]))
      {
        FilesParsedPush(log, info.pkgPath, info.kFiles[i]);
        var parsed := ParseFile(info.kFiles[i], info.pkgPath);
        if parsed.Err? { return Err(parsed.error), srcs; }
        var m := FixRelImportPath(info.pkgRoot, parsed.value.(pkg := info.pkgPath, name := ""));
        pkgFiles := pkgFiles + [m];
        srcs := srcs + [world.sources[info.kFiles[i]]];
      }
      assert info.kFiles[..|info.kFiles|] == info.kFiles;
      return Ok(pkgFiles), srcs;
    }
  }

  function FixedStmt(w: World, root: string, filename: string, s: Stmt): Stmt
  {
    match s
    case Import(spec) => Import(spec.(path := FixPath(w, root, filename, spec.path)))
    case Other(_) => s
  }

  function FixedBody(w: World, root: string, filename: string, body: seq<Stmt>): seq<Stmt>
  {
    seq(|body|, i requires 0 <= i < |body| => FixedStmt(w, root, filename, body[i]))
  }

  /** Modules as parsed, their import paths fixed once. */
  ghost predicate FixedModules(w: World, root: string, mods: seq<Module>, srcs: seq<seq<Stmt>>)
  {
    |srcs| == |mods|
    && forall i | 0 <= i < |mods| :: mods[i].body == FixedBody(w, root, mods[i].filename, srcs[i])
  }

  /** One module for each file of the package, in order. */
  ghost predicate ParsedFrom(w: World, info: PkgInfo, mods: seq<Module>, srcs: seq<seq<Stmt>>)
  {
    |mods| == |srcs| == |info.kFiles|
    && forall i | 0 <= i < |mods| ::
      && info.kFiles[i] in w.sources && srcs[i] == w.sources[info.kFiles[i]]
      && mods[i].filename == info.kFiles[i] && mods[i].pkg == info.pkgPath && mods[i].name == ""
  }

  /** What the statements of a file ask for, the program asks for. */
  ghost predicate FileAsked(w: World, prog: Program, pkgName: string, root: string, filename: string, src: seq<Stmt>)
  {
    forall r | FileAsks(w, pkgName, root, filename, src, r) :: Asked(w, prog, r)
  }

  lemma StmtAsked(w: World, prog: Program, pkgName: string, root: string, filename: string, src: seq<Stmt>, s: Stmt)
    requires FileAsked(w, prog, pkgName, root, filename, src) && s in src
    ensures FileAsked(w, prog, pkgName, root, filename, [s])
  {
    hide Asked;
    forall r | FileAsks(w, pkgName, root, filename, [s], r) ensures Asked(w, prog, r) {
      assert FileAsks(w, pkgName, root, filename, src, r);
    }
  }

  ghost predicate AllAsked(w: World, prog: Program, pkgName: string, root: string, mods: seq<Module>,
                           srcs: seq<seq<Stmt>>)
    requires |srcs| == |mods|
  {
    forall i | 0 <= i < |mods| :: FileAsked(w, prog, pkgName, root, mods[i].filename, srcs[i])
  }

  /** The modules of a package after their imports have been walked. */
  ghost predicate SettledModules(w: World, pkgName: string, root: string, srcs: seq<seq<Stmt>>,
                                 before: seq<Module>, mods: seq<Module>, l: Ledger)
  {
    |srcs| == |before| == |mods|
    && forall i | 0 <= i < |mods| ::
      mods[i] == before[i].(body := mods[i].body) && SettledModule(w, pkgName, root, srcs[i], mods[i], l)
  }

  ghost predicate ParsedMain(w: World, prog: Program, mods: seq<Module>, srcs: seq<seq<Stmt>>)
  {
    |mods| == |srcs| == |prog.kFiles|
    && forall i | 0 <= i < |mods| ::
      && HasMainBody(w, prog, i) && srcs[i] == MainBody(w, prog, i)
      && mods[i].filename == prog.kFiles[i] && mods[i].pkg == MAIN_PKG && mods[i].name == MAIN_PKG
  }

  lemma MainFilesAsked(w: World, prog: Program, mods: seq<Module>, srcs: seq<seq<Stmt>>)
    requires ParsedMain(w, prog, mods, srcs)
    ensures AllAsked(w, prog, MAIN_PKG, prog.root, mods, srcs)
  {
    hide FileAsks;
    forall i, r | 0 <= i < |mods| && FileAsks(w, MAIN_PKG, prog.root, mods[i].filename, srcs[i], r)
      ensures Asked(w, prog, r)
    {
      assert MainAsks(w, prog, r);
    }
  }

  lemma PkgFilesAsked(w: World, prog: Program, req: Request, info: PkgInfo, mods: seq<Module>, srcs: seq<seq<Stmt>>)
    requires Made(w, prog, req) && Finds(w, req, info) && ParsedFrom(w, info, mods, srcs)
    ensures AllAsked(w, prog, info.pkgName, info.pkgRoot, mods, srcs)
  {
    hide FileAsks, Finds;
    forall i, r | 0 <= i < |mods| && FileAsks(w, info.pkgName, info.pkgRoot, mods[i].filename, srcs[i], r)
      ensures Asked(w, prog, r)
    {
      assert PkgAsks(w, info, r);
    }
  }

  lemma IsMainBody(w: World, prog: Program, i: nat, body: seq<Stmt>)
    requires if i < |prog.codes| then body == prog.codes[i]
      else i < |prog.kFiles| && prog.kFiles[i] in w.sources && body == w.sources[prog.kFiles[i]]
    ensures HasMainBody(w, prog, i) && MainBody(w, prog, i) == body
  {
  }

  lemma NeedsFile(w: World, prog: Program, i: nat)
    requires |prog.codes| <= i < |prog.kFiles|
    ensures HasMainBody(w, prog, i) <==> prog.kFiles[i] in w.sources
  {
  }

  lemma NothingNew(pkgs: Packages)
    ensures forall k :: NewFrom(pkgs, pkgs, k)
  {
  }

  lemma MainIsKnown(w: World, prog: Program, st: State)
    requires Valid(w, prog, st)
    ensures MAIN_PKG in st.pkgs
  {
  }

  lemma ValidStart(w: World, prog: Program, st: State)
    requires st.pkgs == map[MAIN_PKG := []] && st.requests == map[] && st.missing == [] && st.diags == []
    requires forall k :: FilesParsed(st.log, k) == if k == MAIN_PKG then prog.kFiles else []
    ensures Valid(w, prog, st)
  {
  }

  lemma MainSettled(w: World, prog: Program, srcs: seq<seq<Stmt>>, parsed: seq<Module>, mods: seq<Module>, l: Ledger)
    requires ParsedMain(w, prog, parsed, srcs)
    requires SettledModules(w, MAIN_PKG, prog.root, srcs, parsed, mods, l)
    ensures SettledMain(w, prog, mods, l)
  {
    hide SettledModule;
  }

  lemma SettledNothing(w: World, pkgName: string, root: string, m: Module, l: Ledger)
    requires m.body == []
    ensures SettledModule(w, pkgName, root, [], m, l)
  {
  }

  lemma SettledModulesStep(w: World, pkgName: string, root: string, srcs: seq<seq<Stmt>>, before: seq<Module>,
                           done: seq<Module>, m: Module, st: State, st': State)
    requires Grown(st, st') && |done| < |srcs| == |before|
    requires SettledModules(w, pkgName, root, srcs[..|done|], before[..|done|], done, st.Now())
    requires m == before[|done|].(body := m.body) && SettledModule(w, pkgName, root, srcs[|done|], m, st'.Now())
    ensures SettledModules(w, pkgName, root, srcs[..|done| + 1], before[..|done| + 1], done + [m], st'.Now())
  {
    hide SettledModule;
    forall i | 0 <= i < |done| ensures SettledModule(w, pkgName, root, srcs[i], done[i], st'.Now()) {
      assert SettledModule(w, pkgName, root, srcs[..|done|][i], done[i], st.Now());
      SettledModuleGrows(w, pkgName, root, srcs[i], done[i], st.Now(), st'.Now());
    }
  }

  lemma SettledModuleStep(w: World, pkgName: string, root: string, src: seq<Stmt>, m: Module, s: Stmt,
                          st: State, st': State)
    requires Grown(st, st') && |m.body| < |src|
    requires SettledModule(w, pkgName, root, src[..|m.body|], m, st.Now())
    requires SettledStmt(w, pkgName, root, m.filename, src[|m.body|], s, st'.Now())
    ensures SettledModule(w, pkgName, root, src[..|m.body| + 1], m.(body := m.body + [s]), st'.Now())
  {
    hide SettledStmt;
    SettledModuleGrows(w, pkgName, root, src[..|m.body|], m, st.Now(), st'.Now());
    forall j | 0 <= j < |m.body| ensures SettledStmt(w, pkgName, root, m.filename, src[j], m.body[j], st'.Now()) {
      assert SettledStmt(w, pkgName, root, m.filename, src[..|m.body|][j], m.body[j], st'.Now());
    }
  }

  /** A walked package completes: its modules are settled and what it brought in is reachable. */
  lemma PackageComplete(w: World, prog: Program, start: State, marked: State, complete: State, after: State,
                        req: Request, info: PkgInfo, srcs: seq<seq<Stmt>>, parsed: seq<Module>, mods: seq<Module>)
    requires Valid(w, prog, start)
    requires Finds(w, req, info) && info.kFiles != [] && info.pkgPath !in start.pkgs
    requires marked.pkgs == start.pkgs[info.pkgPath := []] && marked.requests == start.requests[info.pkgPath := req]
    requires marked.missing == start.missing && marked.diags == start.diags
    requires Valid(w, prog, complete) && Grown(marked, complete)
    requires ParsedFrom(w, info, parsed, srcs)
    requires SettledModules(w, info.pkgName, info.pkgRoot, srcs, parsed, mods, complete.Now())
    requires NewFromModules(marked.pkgs, complete.pkgs, mods)
    requires after == complete.(pkgs := complete.pkgs[info.pkgPath := mods])
    ensures Valid(w, prog, after) && Grown(start, after) && NewFrom(start.pkgs, after.pkgs, info.pkgPath)
    ensures info.pkgPath in after.pkgs
  {
    hide Find, SettledModule, Reachable, ValidEntries, ValidLog, ValidReasons, NewFrom, NewFromModules;
    var k := info.pkgPath;
    assert k in marked.requests && k in complete.requests && complete.requests[k] == req && complete.pkgs[k] == [];
    assert LoadedAs(w, req, k, info) && k !in start.requests && mods != [];
    PackageSettled(w, info, srcs, parsed, mods, complete.Now());
    hide SettledPackage, SettledModules, ParsedFrom;
    ValidAfterFill(w, prog, complete, req, info, mods);
    NewFromFilled(start, complete, k, mods);
    hide Valid;
    GrownOverMark(start, marked, complete, k, req, mods);
  }

  lemma PackageSettled(w: World, info: PkgInfo, srcs: seq<seq<Stmt>>, parsed: seq<Module>, mods: seq<Module>, l: Ledger)
    requires ParsedFrom(w, info, parsed, srcs) && SettledModules(w, info.pkgName, info.pkgRoot, srcs, parsed, mods, l)
    ensures SettledPackage(w, info, mods, l)
  {
    hide SettledModule;
  }

  lemma GrownOverMark(start: State, marked: State, complete: State, k: string, req: Request, mods: seq<Module>)
    requires k !in start.pkgs && k !in start.requests && mods != []
    requires marked.pkgs == start.pkgs[k := []] && marked.requests == start.requests[k := req]
    requires marked.missing == start.missing && marked.diags == start.diags
    requires Grown(marked, complete)
    ensures Grown(start, complete.(pkgs := complete.pkgs[k := mods]))
  {
    var after := complete.(pkgs := complete.pkgs[k := mods]);
    assert k in marked.pkgs && after.Now() == complete.Now();
    forall j | j in start.pkgs ensures j in after.pkgs && after.pkgs[j] == start.pkgs[j] {
      assert j in marked.pkgs;
    }
    forall j | j in after.pkgs && j !in start.pkgs ensures after.pkgs[j] != [] {
      assert j != k ==> j !in marked.pkgs;
    }
    forall j | j in start.requests ensures j in after.requests && after.requests[j] == start.requests[j] {
      assert j in marked.requests;
    }
  }

  /** `load_program`: a run from an empty state. */
  method LoadProgram(world: World, prog: Program)
    returns (r: Result<Packages, string>, missing: seq<string>, diags: seq<string>,
             ghost requests: map<string, Request>, ghost log: seq<(string, string)>)
    ensures r.Ok? ==> Loaded(world, prog, State(r.value, missing, diags, requests, log))
    ensures r.Ok? ==> Closed(world, r.value, Ledger(r.value.Keys, set q | q in missing, set q | q in diags))
    ensures MainReadable(world, prog) && Loadable(world) ==> r.Ok?
  {
    hide Loaded, Closed;
    var loader := new Loader(world);
    var done := loader.LoadMain(prog);
    missing, diags, requests, log := loader.missingPkgs, loader.diags, loader.requests, loader.log;
    r := if done.Err? then Err(done.error) else Ok(loader.pkgs);
    if done.Ok? { LoadedIsClosed(world, prog, loader.Now()); }
  }
}
