/** The package loader's data and what a loaded program must satisfy, kclvm/parser/src/lib.rs. */
module LoaderSpec {
  import opened Wrappers
  import Strings
  import Vfs

  const MAIN_PKG := "__main__"
  const PLUGIN_MODULE_PREFIX := "kcl_plugin."

  datatype ImportStmt = ImportStmt(path: string, name: string, pkgName: string)

  datatype Stmt = Import(spec: ImportStmt) | Other(text: string)

  datatype Module = Module(filename: string, pkg: string, name: string, body: seq<Stmt>)

  datatype PkgInfo = PkgInfo(pkgName: string, pkgRoot: string, pkgPath: string, kFiles: seq<string>)

  /** Everything the loader learns from outside: the options, and the file system and parser as
      finite maps. */
  datatype World = World(
    loadPackages: bool,
    loadPlugins: bool,
    builtins: set<string>,
    /** (root, package path) of each package found under a root, with its KCL files. */
    internal: map<(string, string), Result<seq<string>, string>>,
    /** Package path of each package found outside, with its root and KCL files. */
    external: map<string, Result<(string, seq<string>), string>>,
    /** The statements of each readable file. */
    sources: map<string, seq<Stmt>>,
    /** The directory of a file relative to a root. */
    relDir: (string, string) -> string)

  /** What a run is given: the root, the main files, and code from the command line for the first of them. */
  datatype Program = Program(root: string, kFiles: seq<string>, codes: seq<seq<Stmt>>)

  /** The i-th main file has statements: code given on the command line, or the file's. */
  predicate HasMainBody(w: World, prog: Program, i: nat)
  {
    i < |prog.codes| || (i < |prog.kFiles| && prog.kFiles[i] in w.sources)
  }

  /** There are main files, and each has statements. */
  predicate MainReadable(w: World, prog: Program)
  {
    prog.kFiles != [] && forall i | 0 <= i < |prog.kFiles| :: HasMainBody(w, prog, i)
  }

  function MainBody(w: World, prog: Program, i: nat): seq<Stmt>
    requires HasMainBody(w, prog, i)
  {
    if i < |prog.codes| then prog.codes[i] else w.sources[prog.kFiles[i]]
  }

  /** A package looked up from inside a package. */
  datatype Request = Request(pkgName: string, pkgRoot: string, path: string)

  function FullPath(pkgName: string, path: string): string
  {
    if pkgName == MAIN_PKG then path else pkgName + "." + path
  }

  /** `parse_external_pkg_name`. */
  function ExternalName(path: string): string
  {
    Strings.Split(path, '.')[0]
  }

  function IsInternalPkg(w: World, req: Request): Result<Option<PkgInfo>, string>
  {
    if (req.pkgRoot, req.path) !in w.internal then Ok(None)
    else match w.internal[(req.pkgRoot, req.path)]
      case Ok(kFiles) => Ok(Some(PkgInfo(req.pkgName, req.pkgRoot, FullPath(req.pkgName, req.path), kFiles)))
      case Err(e) => Err(e)
  }

  function IsExternalPkg(w: World, path: string): Result<Option<PkgInfo>, string>
  {
    if path !in w.external then Ok(None)
    else match w.external[path]
      case Ok((root, kFiles)) => Ok(Some(PkgInfo(ExternalName(path), root, path, kFiles)))
      case Err(e) => Err(e)
  }

  /** The package a request finds: one that is either internal or external, not both. */
  function Find(w: World, req: Request): Result<Option<PkgInfo>, string>
  {
    match (IsInternalPkg(w, req), IsExternalPkg(w, req.path))
    case (Err(e), _) => Err(e)
    case (Ok(_), Err(e)) => Err(e)
    case (Ok(Some(_)), Ok(Some(_))) => Ok(None)
    case (Ok(Some(info)), Ok(None)) => Ok(Some(info))
    case (Ok(None), Ok(found)) => Ok(found)
  }

  predicate Finds(w: World, req: Request, info: PkgInfo)
  {
    Find(w, req) == Ok(Some(info))
  }

  predicate FindsNothing(w: World, req: Request)
  {
    Find(w, req) == Ok(None)
  }

  /** Every package that can be found can be read. */
  predicate Loadable(w: World)
  {
    && (forall k | k in w.internal :: w.internal[k].Ok? && forall f | f in w.internal[k].value :: f in w.sources)
    && (forall k | k in w.external :: w.external[k].Ok? && forall f | f in w.external[k].value.1 :: f in w.sources)
  }

  lemma FindsReadable(w: World, req: Request)
    requires Loadable(w)
    ensures Find(w, req).Ok?
    ensures Find(w, req).value.Some? ==> forall f | f in Find(w, req).value.value.kFiles :: f in w.sources
  {
  }

  predicate IsPlugin(path: string) { PLUGIN_MODULE_PREFIX <= path }

  /** `fix_import_path` for an import in a file. */
  function FixPath(w: World, root: string, filename: string, path: string): string
  {
    Vfs.Fixed(Vfs.DirPkgPath(w.relDir(root, filename)), path)
  }

  /** The path an import asks for: the loader fixes every path twice. */
  function AskedPath(w: World, root: string, filename: string, path: string): string
  {
    FixPath(w, root, filename, FixPath(w, root, filename, path))
  }

  /** Paths that are never looked up. */
  predicate Ignored(w: World, path: string)
  {
    path == "" || IsPlugin(path) || path in w.builtins
  }

  /** Paths that some state looks up: not those above, nor the main package, which is always known. */
  predicate MayLookUp(w: World, path: string)
  {
    !Ignored(w, path) && path != MAIN_PKG
  }

  // ----- the requests a program can make -----

  /** A file asks for a package. */
  ghost predicate FileAsks(w: World, pkgName: string, root: string, filename: string, stmts: seq<Stmt>, r: Request)
  {
    exists s :: s in stmts && s.Import? && r == Request(pkgName, root, AskedPath(w, root, filename, s.spec.path))
  }

  ghost predicate PkgAsks(w: World, info: PkgInfo, r: Request)
  {
    exists i :: 0 <= i < |info.kFiles| && info.kFiles[i] in w.sources
      && FileAsks(w, info.pkgName, info.pkgRoot, info.kFiles[i], w.sources[info.kFiles[i]], r)
  }

  ghost predicate MainAsks(w: World, prog: Program, r: Request)
  {
    exists i :: 0 <= i < |prog.kFiles| && HasMainBody(w, prog, i)
      && FileAsks(w, MAIN_PKG, prog.root, prog.kFiles[i], MainBody(w, prog, i), r)
  }

  /** The requests of the main files, and of the files of every package that such a request finds. */
  least predicate Asked(w: World, prog: Program, r: Request)
  {
    || MainAsks(w, prog, r)
    || exists r0, info :: Asked(w, prog, r0) && MayLookUp(w, r0.path) && Finds(w, r0, info) && PkgAsks(w, info, r)
  }

  /** A request that the program can make and that can be looked up. */
  ghost predicate Made(w: World, prog: Program, r: Request)
  {
    Asked(w, prog, r) && MayLookUp(w, r.path)
  }

  // ----- what a run leaves behind -----

  /** The names a run has dealt with: keys of `pkgs`, `missing_pkgs`, and the paths that got a
      CannotFindModule diagnostic. */
  datatype Ledger = Ledger(keys: set<string>, missing: set<string>, diags: set<string>) {
    predicate Within(l: Ledger) { keys <= l.keys && missing <= l.missing && diags <= l.diags }
  }

  /** An import path that is left as it was asked for. */
  predicate Accounted(w: World, path: string, l: Ledger)
  {
    path == "" || path in l.keys || IsPlugin(path) || path in w.builtins || path in l.missing || path in l.diags
  }

  /** A request that is settled without a lookup, in a state that has dealt with `l`. */
  predicate SkipsLookup(w: World, path: string, l: Ledger)
  {
    Ignored(w, path) || path in l.keys || path in l.missing
  }

  /** Why an import keeps the path it asks for: it is not looked up, or nothing is found and it is
      diagnosed. A diagnostic that another request got for the same path is no reason. */
  predicate LeftAlone(w: World, req: Request, l: Ledger)
  {
    SkipsLookup(w, req.path, l) || (FindsNothing(w, req) && req.path in l.diags)
  }

  /** What an import statement has become: it is left alone for one of the reasons above, or it
      names the loaded package its request finds. */
  ghost predicate SettledImport(w: World, req: Request, out: ImportStmt, l: Ledger)
  {
    || (out.path == req.path && out.pkgName == req.pkgName && (w.loadPackages ==> LeftAlone(w, req, l)))
    || (w.loadPackages && MayLookUp(w, req.path)
        && exists info :: Finds(w, req, info) && NamesPackage(out, info) && info.pkgPath in l.keys)
  }

  predicate NamesPackage(out: ImportStmt, info: PkgInfo)
  {
    out.path == info.pkgPath && out.pkgName == info.pkgName
  }

  /** What a request that is looked up comes to: the package it finds, unless that package has no
      files and is not loaded. */
  function LookedUp(w: World, req: Request, keys: set<string>): Option<PkgInfo>
  {
    match Find(w, req)
    case Ok(Some(info)) => if info.pkgPath in keys || info.kFiles != [] then Some(info) else None
    case _ => None
  }

  /** The names of a request and of the package it finds are the same. */
  predicate SameNames(req: Request, info: PkgInfo)
  {
    info.pkgPath == req.path && info.pkgName == req.pkgName
  }

  /** A settled import is sure to name the package its request finds exactly when the path it asks for
      is looked up, or the request has the package's names already: an internal package of the main
      package, or an external one asked for from inside itself. */
  lemma NamesWhatItFinds(w: World, req: Request, l: Ledger, info: PkgInfo)
    requires w.loadPackages && Finds(w, req, info)
    ensures (forall out | SettledImport(w, req, out, l) :: NamesPackage(out, info))
      <==> !SkipsLookup(w, req.path, l) || SameNames(req, info)
    ensures (req.pkgRoot, req.path) in w.internal ==>
      (SameNames(req, info) <==> req.pkgName == MAIN_PKG)
    ensures (req.pkgRoot, req.path) !in w.internal ==>
      (SameNames(req, info) <==> req.pkgName == ExternalName(req.path))
  {
    var raw := ImportStmt(req.path, "", req.pkgName);
    assert SkipsLookup(w, req.path, l) ==> SettledImport(w, req, raw, l);
    assert NamesPackage(raw, info) <==> SameNames(req, info);
    assert |FullPath(req.pkgName, req.path)| == |req.path| <==> req.pkgName == MAIN_PKG;
  }

  ghost predicate SettledStmt(w: World, pkgName: string, root: string, filename: string, src: Stmt, out: Stmt,
                              l: Ledger)
  {
    match src
    case Import(spec) =>
      out.Import? && out.spec.name == spec.name
      && SettledImport(w, Request(pkgName, root, AskedPath(w, root, filename, spec.path)), out.spec, l)
    case Other(_) => out == src
  }

  ghost predicate SettledModule(w: World, pkgName: string, root: string, src: seq<Stmt>, m: Module, l: Ledger)
  {
    |m.body| == |src|
    && forall j | 0 <= j < |src| :: SettledStmt(w, pkgName, root, m.filename, src[j], m.body[j], l)
  }

  /** A package's modules are its files in order, with every import settled. */
  ghost predicate SettledPackage(w: World, info: PkgInfo, mods: seq<Module>, l: Ledger)
  {
    |mods| == |info.kFiles|
    && forall i | 0 <= i < |mods| ::
      && mods[i].filename == info.kFiles[i] && info.kFiles[i] in w.sources
      && mods[i].pkg == info.pkgPath && mods[i].name == ""
      && SettledModule(w, info.pkgName, info.pkgRoot, w.sources[info.kFiles[i]], mods[i], l)
  }

  lemma SettledModuleGrows(w: World, pkgName: string, root: string, src: seq<Stmt>, m: Module, l: Ledger, l': Ledger)
    requires SettledModule(w, pkgName, root, src, m, l) && l.Within(l')
    ensures SettledModule(w, pkgName, root, src, m, l')
  {
    forall j | 0 <= j < |src| ensures SettledStmt(w, pkgName, root, m.filename, src[j], m.body[j], l') {
      assert SettledStmt(w, pkgName, root, m.filename, src[j], m.body[j], l);
    }
  }

  lemma SettledPackageGrows(w: World, info: PkgInfo, mods: seq<Module>, l: Ledger, l': Ledger)
    requires SettledPackage(w, info, mods, l) && l.Within(l')
    ensures SettledPackage(w, info, mods, l')
  {
    forall i | 0 <= i < |mods|
      ensures SettledModule(w, info.pkgName, info.pkgRoot, w.sources[info.kFiles[i]], mods[i], l')
    {
      SettledModuleGrows(w, info.pkgName, info.pkgRoot, w.sources[info.kFiles[i]], mods[i], l, l');
    }
  }

  // ----- reachability along rewritten imports -----

  type Packages = map<string, seq<Module>>

  predicate BodyImports(body: seq<Stmt>, path: string)
  {
    exists j | 0 <= j < |body| :: body[j].Import? && body[j].spec.path == path
  }

  predicate ImportsPath(mods: seq<Module>, path: string)
  {
    exists i | 0 <= i < |mods| :: BodyImports(mods[i].body, path)
  }

  lemma BodyImportsAppend(body: seq<Stmt>, s: Stmt, path: string)
    ensures BodyImports(body + [s], path) <==> BodyImports(body, path) || (s.Import? && s.spec.path == path)
  {
    var longer := body + [s];
    assert s.Import? && s.spec.path == path ==> longer[|body|].Import? && longer[|body|].spec.path == path;
    if j :| 0 <= j < |body| && body[j].Import? && body[j].spec.path == path {
      assert longer[j] == body[j];
    }
  }

  lemma ImportsPathAppend(mods: seq<Module>, m: Module, path: string)
    ensures ImportsPath(mods + [m], path) <==> ImportsPath(mods, path) || BodyImports(m.body, path)
  {
    var longer := mods + [m];
    assert longer[|mods|] == m;
    if i :| 0 <= i < |mods| && BodyImports(mods[i].body, path) {
      assert longer[i] == mods[i];
    }
  }

  ghost predicate Chain(pkgs: Packages, p: seq<string>)
  {
    && (forall i | 0 <= i < |p| :: p[i] in pkgs)
    && (forall i | 0 <= i < |p| - 1 :: Link(pkgs, p, i))
  }

  ghost predicate Link(pkgs: Packages, p: seq<string>, i: nat)
    requires i + 1 < |p|
  {
    p[i] in pkgs && ImportsPath(pkgs[p[i]], p[i + 1])
  }

  ghost predicate ChainBetween(pkgs: Packages, p: seq<string>, from: string, to: string)
  {
    |p| > 0 && p[0] == from && p[|p| - 1] == to && Chain(pkgs, p)
  }

  ghost predicate Reachable(pkgs: Packages, from: string, to: string)
  {
    exists p :: ChainBetween(pkgs, p, from, to)
  }

  /** `pkgs'` has everything `pkgs` has; an empty placeholder may have been filled. */
  ghost predicate Extends(pkgs: Packages, pkgs': Packages)
  {
    forall k | k in pkgs :: k in pkgs' && (pkgs[k] != [] ==> pkgs'[k] == pkgs[k])
  }

  lemma ReachableExtends(pkgs: Packages, pkgs': Packages, from: string, to: string)
    requires Reachable(pkgs, from, to) && Extends(pkgs, pkgs')
    ensures Reachable(pkgs', from, to)
  {
    var p :| ChainBetween(pkgs, p, from, to);
    forall i | 0 <= i < |p| - 1 ensures Link(pkgs', p, i) { assert Link(pkgs, p, i); }
    assert ChainBetween(pkgs', p, from, to);
  }

  lemma ReachableStep(pkgs: Packages, from: string, next: string, to: string)
    requires from in pkgs && ImportsPath(pkgs[from], next) && Reachable(pkgs, next, to)
    ensures Reachable(pkgs, from, to)
  {
    var p :| ChainBetween(pkgs, p, next, to);
    var longer := [from] + p;
    forall i | 0 <= i < |longer| - 1 ensures Link(pkgs, longer, i) { assert i > 0 ==> Link(pkgs, p, i - 1); }
    assert ChainBetween(pkgs, longer, from, to);
  }

  lemma ReachableSelf(pkgs: Packages, k: string)
    requires k in pkgs
    ensures Reachable(pkgs, k, k)
  {
    assert ChainBetween(pkgs, [k], k, k);
  }

  // ----- termination: the package paths that requests can find -----

  function Names(w: World): set<string>
  {
    {MAIN_PKG} + set p | p in w.external :: ExternalName(p)
  }

  function PkgPaths(w: World): set<string>
  {
    w.external.Keys + set k, n | k in w.internal.Keys && n in Names(w) :: FullPath(n, k.1)
  }

  lemma ShrinksStrictly(all: set<string>, pkgs: Packages, k: string)
    requires k in all && k !in pkgs
    ensures |all - pkgs[k := []].Keys| < |all - pkgs.Keys|
  {
    assert pkgs[k := []].Keys == pkgs.Keys + {k};
    assert all - pkgs.Keys == (all - (pkgs.Keys + {k})) + {k};
  }

  lemma FoundPathsAreFinite(w: World, req: Request, info: PkgInfo)
    requires req.pkgName in Names(w) && Finds(w, req, info)
    ensures info.pkgPath in PkgPaths(w) && info.pkgName in Names(w)
  {
    if (req.pkgRoot, req.path) in w.internal {
      assert FullPath(req.pkgName, (req.pkgRoot, req.path).1) in PkgPaths(w);
    }
  }

  /** Every request is made by the main package or an external one. */
  least lemma AskedByName(w: World, prog: Program, r: Request)
    requires Asked(w, prog, r)
    ensures r.pkgName in Names(w)
  {
    hide Find;
    if !MainAsks(w, prog, r) {
      var r0, info :|
        Asked#[_k - 1](w, prog, r0) && MayLookUp(w, r0.path) && Finds(w, r0, info) && PkgAsks(w, info, r);
      AskedByName#[_k - 1](w, prog, r0);
      FoundPathsAreFinite(w, r0, info);
    }
  }

  // ----- the log of parsed files -----

  /** The files parsed for one package, in order. */
  function FilesParsed(log: seq<(string, string)>, pkg: string): seq<string>
  {
    if log == [] then []
    else
      var n := |log| - 1;
      FilesParsed(log[..n], pkg) + if log[n].0 == pkg then [log[n].1] else []
  }

  lemma NothingParsed()
    ensures forall k :: FilesParsed([], k) == []
  {
  }

  lemma FilesParsedPush(log: seq<(string, string)>, pkg: string, file: string)
    ensures forall k ::
      FilesParsed(log + [(pkg, file)], k) == FilesParsed(log, k) + if k == pkg then [file] else []
  {
    assert (log + [(pkg, file)])[..|log|] == log;
  }

  // ----- reasons -----

  /** A missing package was found without any KCL file. */
  ghost predicate MissingForAReason(w: World, prog: Program, path: string)
  {
    exists req, info :: Made(w, prog, req) && Finds(w, req, info) && req.path == path && info.kFiles == []
  }

  /** A diagnosed path was asked for, and is a plugin that plugins are off for, or was not found. */
  ghost predicate DiagnosedForAReason(w: World, prog: Program, path: string)
  {
    exists req :: Asked(w, prog, req) && req.path == path
      && ((IsPlugin(path) && !w.loadPlugins) || (MayLookUp(w, path) && FindsNothing(w, req)))
  }

  // ----- the loader's state -----

  /** `requests` and `log` are the model's own: for each loaded package other than the main one, the
      request that found it; and every file parsed, with the package it was parsed for. */
  datatype State = State(
    pkgs: Packages,
    missing: seq<string>,
    diags: seq<string>,
    requests: map<string, Request>,
    log: seq<(string, string)>)
  {
    ghost function Now(): Ledger { Ledger(pkgs.Keys, set q | q in missing, set q | q in diags) }
  }

  /** The package a loaded key stands for. */
  ghost predicate LoadedAs(w: World, req: Request, k: string, info: PkgInfo)
  {
    Finds(w, req, info) && info.pkgPath == k && info.kFiles != []
  }

  /** A loaded package is settled; an empty list is a package whose imports are being walked. */
  ghost predicate ValidEntry(w: World, k: string, req: Request, mods: seq<Module>, l: Ledger)
  {
    exists info :: LoadedAs(w, req, k, info) && (mods != [] ==> SettledPackage(w, info, mods, l))
  }

  ghost predicate ValidEntries(w: World, st: State, l: Ledger)
  {
    forall k | k in st.requests :: k in st.pkgs && ValidEntry(w, k, st.requests[k], st.pkgs[k], l)
  }

  /** Every package has been loaded for a request that the program makes. */
  ghost predicate ValidRequests(w: World, prog: Program, st: State)
  {
    forall k | k in st.requests :: Made(w, prog, st.requests[k])
  }

  /** Each file of a package has been parsed once, in order, and no other file. */
  ghost predicate ValidLog(w: World, prog: Program, st: State)
  {
    && FilesParsed(st.log, MAIN_PKG) == prog.kFiles
    && (forall k | k in st.requests :: ParsedOnce(w, st.log, st.requests[k], k))
    && (forall k | k !in st.pkgs :: FilesParsed(st.log, k) == [])
  }

  ghost predicate ParsedOnce(w: World, log: seq<(string, string)>, req: Request, k: string)
  {
    forall info | LoadedAs(w, req, k, info) :: FilesParsed(log, k) == info.kFiles
  }

  ghost predicate ValidReasons(w: World, prog: Program, st: State)
  {
    && (forall q | q in st.missing :: MissingForAReason(w, prog, q))
    && (forall q | q in st.diags :: DiagnosedForAReason(w, prog, q))
  }

  /** What holds between any two steps of a run. */
  ghost predicate Valid(w: World, prog: Program, st: State)
  {
    && MAIN_PKG in st.pkgs && st.pkgs.Keys == st.requests.Keys + {MAIN_PKG} && MAIN_PKG !in st.requests
    && ValidEntries(w, st, st.Now())
    && ValidRequests(w, prog, st)
    && ValidLog(w, prog, st)
    && ValidReasons(w, prog, st)
  }

  /** What a walk may change: it adds settled packages and leaves the others alone. */
  ghost predicate Grown(st: State, st': State)
  {
    && st.Now().Within(st'.Now())
    && (forall k | k in st.pkgs :: k in st'.pkgs && st'.pkgs[k] == st.pkgs[k])
    && (forall k | k in st'.pkgs && k !in st.pkgs :: st'.pkgs[k] != [])
    && (forall k | k in st.requests :: k in st'.requests && st'.requests[k] == st.requests[k])
  }

  lemma GrownSelf(st: State)
    ensures Grown(st, st)
    ensures NewFromModules(st.pkgs, st.pkgs, []) && NewFromBody(st.pkgs, st.pkgs, [])
  {
  }

  /** The measure does not rise as packages are added. */
  lemma Shrinks(all: set<string>, st: State, st': State)
    requires Grown(st, st')
    ensures |all - st'.pkgs.Keys| <= |all - st.pkgs.Keys|
  {
    assert all - st.pkgs.Keys == (all - st'.pkgs.Keys) + ((all - st.pkgs.Keys) * st'.pkgs.Keys);
  }

  lemma GrownTwice(st0: State, st1: State, st2: State)
    requires Grown(st0, st1) && Grown(st1, st2)
    ensures Grown(st0, st2)
  {
  }

  /** Every package a walk has added is reachable from an import of the modules walked. */
  ghost predicate NewFromModules(pkgs: Packages, pkgs': Packages, mods: seq<Module>)
  {
    forall k | k in pkgs' && k !in pkgs :: FromModules(pkgs', mods, k)
  }

  ghost predicate FromModules(pkgs: Packages, mods: seq<Module>, k: string)
  {
    exists q :: ImportsPath(mods, q) && Reachable(pkgs, q, k)
  }

  ghost predicate NewFromBody(pkgs: Packages, pkgs': Packages, body: seq<Stmt>)
  {
    forall k | k in pkgs' && k !in pkgs :: FromBody(pkgs', body, k)
  }

  ghost predicate FromBody(pkgs: Packages, body: seq<Stmt>, k: string)
  {
    exists q :: BodyImports(body, q) && Reachable(pkgs, q, k)
  }

  ghost predicate NewFrom(pkgs: Packages, pkgs': Packages, from: string)
  {
    forall k | k in pkgs' && k !in pkgs :: Reachable(pkgs', from, k)
  }

  lemma NewFromModulesStep(st0: State, st1: State, st2: State, mods: seq<Module>, m: Module)
    requires Grown(st0, st1) && Grown(st1, st2)
    requires NewFromModules(st0.pkgs, st1.pkgs, mods) && NewFromBody(st1.pkgs, st2.pkgs, m.body)
    ensures NewFromModules(st0.pkgs, st2.pkgs, mods + [m])
  {
    forall k | k in st2.pkgs && k !in st0.pkgs ensures FromModules(st2.pkgs, mods + [m], k) {
      if k in st1.pkgs {
        assert FromModules(st1.pkgs, mods, k);
        var q :| ImportsPath(mods, q) && Reachable(st1.pkgs, q, k);
        ReachableExtends(st1.pkgs, st2.pkgs, q, k);
        ImportsPathAppend(mods, m, q);
      } else {
        assert FromBody(st2.pkgs, m.body, k);
        var q :| BodyImports(m.body, q) && Reachable(st2.pkgs, q, k);
        ImportsPathAppend(mods, m, q);
      }
    }
  }

  /** One statement: what it adds, if anything, is reachable from its path. */
  lemma NewFromBodyStep(st0: State, st1: State, st2: State, body: seq<Stmt>, s: Stmt)
    requires Grown(st0, st1) && Grown(st1, st2)
    requires NewFromBody(st0.pkgs, st1.pkgs, body)
    requires st2.pkgs == st1.pkgs || (s.Import? && NewFrom(st1.pkgs, st2.pkgs, s.spec.path))
    ensures NewFromBody(st0.pkgs, st2.pkgs, body + [s])
  {
    forall k | k in st2.pkgs && k !in st0.pkgs ensures FromBody(st2.pkgs, body + [s], k) {
      if k in st1.pkgs {
        assert FromBody(st1.pkgs, body, k);
        var q :| BodyImports(body, q) && Reachable(st1.pkgs, q, k);
        ReachableExtends(st1.pkgs, st2.pkgs, q, k);
        BodyImportsAppend(body, s, q);
      } else {
        BodyImportsAppend(body, s, s.spec.path);
      }
    }
  }

  lemma ValidEntriesGrow(w: World, st: State, l: Ledger, l': Ledger)
    requires ValidEntries(w, st, l) && l.Within(l')
    ensures ValidEntries(w, st, l')
  {
    forall k | k in st.requests ensures ValidEntry(w, k, st.requests[k], st.pkgs[k], l') {
      var info :| LoadedAs(w, st.requests[k], k, info) && (st.pkgs[k] != [] ==> SettledPackage(w, info, st.pkgs[k], l));
      if st.pkgs[k] != [] { SettledPackageGrows(w, info, st.pkgs[k], l, l'); }
    }
  }

  lemma ValidAfterDiag(w: World, prog: Program, st: State, path: string)
    requires Valid(w, prog, st) && DiagnosedForAReason(w, prog, path)
    ensures var st' := st.(diags := st.diags + [path]);
      Valid(w, prog, st') && Grown(st, st') && path in st'.Now().diags
  {
    var st' := st.(diags := st.diags + [path]);
    ValidEntriesGrow(w, st, st.Now(), st'.Now());
  }

  lemma ValidAfterMissing(w: World, prog: Program, st: State, path: string)
    requires Valid(w, prog, st) && MissingForAReason(w, prog, path)
    ensures var st' := st.(missing := st.missing + [path]);
      Valid(w, prog, st') && Grown(st, st') && path in st'.Now().missing
  {
    var st' := st.(missing := st.missing + [path]);
    ValidEntriesGrow(w, st, st.Now(), st'.Now());
  }

  /** Marking a package whose files have just been parsed. */
  lemma ValidAfterMark(w: World, prog: Program, st: State, st': State, req: Request, info: PkgInfo)
    requires Valid(w, prog, st) && Made(w, prog, req)
    requires Finds(w, req, info) && info.pkgPath !in st.pkgs && info.kFiles != []
    requires st'.pkgs == st.pkgs[info.pkgPath := []] && st'.requests == st.requests[info.pkgPath := req]
    requires st'.missing == st.missing && st'.diags == st.diags && LogsPackage(st.log, st'.log, info)
    ensures Valid(w, prog, st')
  {
    hide ValidEntries, ValidLog, LogsPackage, LoadedAs, Finds, MissingForAReason, DiagnosedForAReason, Made;
    assert LoadedAs(w, req, info.pkgPath, info) by { IsLoadedAs(w, req, info); }
    EntriesAfterMark(w, st, st', req, info);
    LogAfterMark(w, prog, st, st', req, info);
  }

  lemma IsLoadedAs(w: World, req: Request, info: PkgInfo)
    requires Finds(w, req, info) && info.kFiles != []
    ensures LoadedAs(w, req, info.pkgPath, info)
  {
  }

  lemma EntriesAfterMark(w: World, st: State, st': State, req: Request, info: PkgInfo)
    requires ValidEntries(w, st, st.Now()) && LoadedAs(w, req, info.pkgPath, info) && info.pkgPath !in st.requests
    requires st'.pkgs == st.pkgs[info.pkgPath := []] && st'.requests == st.requests[info.pkgPath := req]
    requires st'.missing == st.missing && st'.diags == st.diags
    ensures ValidEntries(w, st', st'.Now())
  {
    hide LoadedAs, SettledPackage;
    assert st'.Now().keys == st.Now().keys + {info.pkgPath};
    ValidEntriesGrow(w, st, st.Now(), st'.Now());
    assert ValidEntry(w, info.pkgPath, req, [], st'.Now());
    hide ValidEntry;
  }

  lemma LogAfterMark(w: World, prog: Program, st: State, st': State, req: Request, info: PkgInfo)
    requires ValidLog(w, prog, st) && LoadedAs(w, req, info.pkgPath, info) && info.pkgPath !in st.pkgs
    requires MAIN_PKG in st.pkgs && st.requests.Keys <= st.pkgs.Keys
    requires st'.pkgs == st.pkgs[info.pkgPath := []] && st'.requests == st.requests[info.pkgPath := req]
    requires LogsPackage(st.log, st'.log, info)
    ensures ValidLog(w, prog, st')
  {
    hide FilesParsed, Find;
    assert ParsedOnce(w, st'.log, req, info.pkgPath);
    forall j | j in st'.requests ensures ParsedOnce(w, st'.log, st'.requests[j], j) {
      assert j != info.pkgPath ==> ParsedOnce(w, st.log, st.requests[j], j);
    }
  }

  /** The log grew by the files of one package. */
  ghost predicate LogsPackage(log: seq<(string, string)>, log': seq<(string, string)>, info: PkgInfo)
  {
    forall k :: FilesParsed(log', k) == FilesParsed(log, k) + if k == info.pkgPath then info.kFiles else []
  }

  /** Replacing the mark by the complete modules. */
  lemma ValidAfterFill(w: World, prog: Program, st: State, req: Request, info: PkgInfo, mods: seq<Module>)
    requires Valid(w, prog, st) && info.pkgPath in st.requests && st.requests[info.pkgPath] == req
    requires LoadedAs(w, req, info.pkgPath, info) && SettledPackage(w, info, mods, st.Now())
    ensures Valid(w, prog, st.(pkgs := st.pkgs[info.pkgPath := mods]))
  {
    var st' := st.(pkgs := st.pkgs[info.pkgPath := mods]);
    assert st'.Now() == st.Now();
    forall k | k in st'.requests ensures ValidEntry(w, k, st'.requests[k], st'.pkgs[k], st'.Now()) {
      assert ValidEntry(w, k, st.requests[k], st.pkgs[k], st.Now());
    }
  }

  /** A filled package: what its walk added is reachable from it. */
  lemma NewFromFilled(st0: State, st1: State, k: string, mods: seq<Module>)
    requires k !in st0.pkgs && k in st1.pkgs && st1.pkgs[k] == []
    requires NewFromModules(st0.pkgs[k := []], st1.pkgs, mods)
    ensures NewFrom(st0.pkgs, st1.pkgs[k := mods], k)
  {
    var pkgs := st1.pkgs[k := mods];
    forall j | j in pkgs && j !in st0.pkgs ensures Reachable(pkgs, k, j) {
      if j == k {
        ReachableSelf(pkgs, k);
      } else {
        assert FromModules(st1.pkgs, mods, j);
        var q :| ImportsPath(mods, q) && Reachable(st1.pkgs, q, j);
        ReachableExtends(st1.pkgs, pkgs, q, j);
        ReachableStep(pkgs, k, q, j);
      }
    }
  }

  // ----- a whole run -----

  ghost predicate SettledMain(w: World, prog: Program, mods: seq<Module>, l: Ledger)
  {
    |mods| == |prog.kFiles| && forall i | 0 <= i < |mods| ::
      && HasMainBody(w, prog, i)
      && mods[i].filename == prog.kFiles[i] && mods[i].pkg == MAIN_PKG && mods[i].name == MAIN_PKG
      && SettledModule(w, MAIN_PKG, prog.root, MainBody(w, prog, i), mods[i], l)
  }

  function Filenames(mods: seq<Module>): seq<string>
  {
    seq(|mods|, i requires 0 <= i < |mods| => mods[i].filename)
  }

  /** No placeholder is left, and every module belongs to the package it is filed under. */
  predicate Complete(k: string, mods: seq<Module>)
  {
    mods != [] && forall i | 0 <= i < |mods| :: mods[i].pkg == k
  }

  /** A loaded program:
      every package is complete; the main modules and every other package are what their files
      became with each import settled, each loaded for a request that the program makes; the packages
      are exactly those reachable from the main one along the rewritten imports; each file was parsed
      once; and nothing is reported as missing or not found without a reason. */
  ghost predicate Loaded(w: World, prog: Program, st: State)
  {
    && MAIN_PKG in st.pkgs
    && (forall k | k in st.pkgs :: Complete(k, st.pkgs[k]))
    && SettledMain(w, prog, st.pkgs[MAIN_PKG], st.Now())
    && (forall k | k in st.pkgs && k != MAIN_PKG ::
          k in st.requests && ValidEntry(w, k, st.requests[k], st.pkgs[k], st.Now()))
    && ValidRequests(w, prog, st)
    && (if w.loadPackages then forall k | k in st.pkgs :: Reachable(st.pkgs, MAIN_PKG, k)
        else st.pkgs.Keys == {MAIN_PKG})
    && (forall k :: FilesParsed(st.log, k) == if k in st.pkgs then Filenames(st.pkgs[k]) else [])
    && ValidReasons(w, prog, st)
  }

  /** The result of a run on its own: packages are complete and reachable, and every import in them is
      loaded or accounted for. */
  ghost predicate Closed(w: World, pkgs: Packages, l: Ledger)
  {
    && MAIN_PKG in pkgs && (forall k | k in pkgs :: Complete(k, pkgs[k]))
    && (!w.loadPackages ==> pkgs.Keys == {MAIN_PKG})
    && (w.loadPackages ==> forall k | k in pkgs :: Reachable(pkgs, MAIN_PKG, k))
    && (w.loadPackages ==> forall k, p | k in pkgs && ImportsPath(pkgs[k], p) :: Accounted(w, p, l))
  }

  lemma SettledModuleImports(w: World, pkgName: string, root: string, src: seq<Stmt>, m: Module, l: Ledger, p: string)
    requires w.loadPackages && SettledModule(w, pkgName, root, src, m, l) && BodyImports(m.body, p)
    ensures Accounted(w, p, l)
  {
    var j :| 0 <= j < |m.body| && m.body[j].Import? && m.body[j].spec.path == p;
    assert SettledStmt(w, pkgName, root, m.filename, src[j], m.body[j], l);
  }

  lemma LoadedIsClosed(w: World, prog: Program, st: State)
    requires Loaded(w, prog, st)
    ensures Closed(w, st.pkgs, st.Now())
  {
    hide Reachable, SettledModule, Accounted, BodyImports, Complete, ValidReasons, Filenames, FilesParsed, Find;
    forall k, p | w.loadPackages && k in st.pkgs && ImportsPath(st.pkgs[k], p)
      ensures Accounted(w, p, st.Now())
    {
      var mods := st.pkgs[k];
      var i :| 0 <= i < |mods| && BodyImports(mods[i].body, p);
      if k == MAIN_PKG {
        SettledModuleImports(w, MAIN_PKG, prog.root, MainBody(w, prog, i), mods[i], st.Now(), p);
      } else {
        assert ValidEntry(w, k, st.requests[k], mods, st.Now());
        var info :| LoadedAs(w, st.requests[k], k, info) && SettledPackage(w, info, mods, st.Now());
        SettledModuleImports(w, info.pkgName, info.pkgRoot, w.sources[info.kFiles[i]], mods[i], st.Now(), p);
      }
    }
  }

  lemma EntryComplete(w: World, k: string, req: Request, mods: seq<Module>, l: Ledger, log: seq<(string, string)>)
    requires ValidEntry(w, k, req, mods, l) && mods != [] && ParsedOnce(w, log, req, k)
    ensures Complete(k, mods) && FilesParsed(log, k) == Filenames(mods)
  {
    hide Find, SettledModule;
    var info :| LoadedAs(w, req, k, info) && SettledPackage(w, info, mods, l);
    assert Filenames(mods) == info.kFiles;
  }

  lemma LoadedFromValid(w: World, prog: Program, start: State, complete: State, mods: seq<Module>)
    requires start.pkgs == map[MAIN_PKG := []] && prog.kFiles != []
    requires Valid(w, prog, complete) && Grown(start, complete)
    requires SettledMain(w, prog, mods, complete.Now())
    requires NewFromModules(start.pkgs, complete.pkgs, mods)
    requires !w.loadPackages ==> complete.pkgs == start.pkgs
    ensures Loaded(w, prog, complete.(pkgs := complete.pkgs[MAIN_PKG := mods]))
  {
    hide SettledMain, ValidEntry, ParsedOnce, NewFromModules, Reachable, Complete, Filenames, FilesParsed, Made;
    var st := complete.(pkgs := complete.pkgs[MAIN_PKG := mods]);
    assert complete.pkgs[MAIN_PKG] == [] && st.Now() == complete.Now();
    MainComplete(w, prog, mods, complete.Now());
    NewFromFilledMain(start, complete, mods);
    forall k | k in st.pkgs && k != MAIN_PKG
      ensures Complete(k, st.pkgs[k]) && k in st.requests
      ensures ValidEntry(w, k, st.requests[k], st.pkgs[k], st.Now())
      ensures FilesParsed(st.log, k) == Filenames(st.pkgs[k])
    {
      assert k !in start.pkgs && ParsedOnce(w, complete.log, complete.requests[k], k);
      assert ValidEntry(w, k, complete.requests[k], complete.pkgs[k], complete.Now());
      EntryComplete(w, k, st.requests[k], st.pkgs[k], st.Now(), st.log);
    }
  }

  lemma MainComplete(w: World, prog: Program, mods: seq<Module>, l: Ledger)
    requires SettledMain(w, prog, mods, l) && prog.kFiles != []
    ensures Complete(MAIN_PKG, mods) && Filenames(mods) == prog.kFiles
  {
    hide SettledModule;
    assert Filenames(mods) == prog.kFiles;
  }

  lemma NewFromFilledMain(start: State, complete: State, mods: seq<Module>)
    requires start.pkgs == map[MAIN_PKG := []] && MAIN_PKG in complete.pkgs && complete.pkgs[MAIN_PKG] == []
    requires NewFromModules(start.pkgs, complete.pkgs, mods)
    ensures forall k | k in complete.pkgs :: Reachable(complete.pkgs[MAIN_PKG := mods], MAIN_PKG, k)
  {
    var before := start.(pkgs := map[]);
    assert before.pkgs[MAIN_PKG := []] == start.pkgs;
    NewFromFilled(before, complete, MAIN_PKG, mods);
  }
}
