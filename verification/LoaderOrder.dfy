/** What the order of the import statements decides, kclvm/parser/src/lib.rs:384-417 and 490-576. */
module LoaderOrder {
  import opened Wrappers
  import opened LoaderSpec
  import Loader

  // ----- a program in which it decides, and one in which it does not -----

  /** The main package has a package `a`. The external package `ext` has a package `name`, which it imports,
      and which can be found from outside too. */
  function ExtWith(name: string): World
  {
    World(true, true, {},
      map[("/", "a") := Ok(["/a.k"]), ("/ext", name) := Ok(["/ext/part.k"])],
      map["ext" := Ok(("/ext", ["/ext/main.k"])), "ext." + name := Ok(("/ext", ["/ext/part.k"]))],
      map["/a.k" := [], "/ext/part.k" := [], "/ext/main.k" := [ImportOf(name)]], (root, file) => "")
  }

  function ImportOf(path: string): Stmt
  {
    Import(ImportStmt(path, path, ""))
  }

  /** The program imports all three packages. */
  function ExtProgram(name: string): Program
  {
    Program("/", ["/main.k"], [[ImportOf("a"), ImportOf("ext"), ImportOf("ext." + name)]])
  }

  function InExt(name: string): Request
  {
    Request("ext", "/ext", name)
  }

  function InMain(path: string): Request
  {
    Request(MAIN_PKG, "/", path)
  }

  lemma AbsolutePath(w: World, root: string, filename: string, path: string)
    requires path != "" && path[0] != '.'
    ensures AskedPath(w, root, filename, path) == path
  {
  }

  /** The requests of this program, and what they find. */
  function ExtFound(name: string): map<Request, PkgInfo>
  {
    var part := PkgInfo("ext", "/ext", "ext." + name, ["/ext/part.k"]);
    map[InMain("a") := PkgInfo(MAIN_PKG, "/", "a", ["/a.k"]),
        InMain("ext") := PkgInfo("ext", "/ext", "ext", ["/ext/main.k"]),
        InMain("ext." + name) := part,
        InExt(name) := part]
  }

  lemma ExtFinds(name: string, r: Request)
    requires (name == "a" || name == "b") && r in ExtFound(name)
    ensures Find(ExtWith(name), r) == Ok(Some(ExtFound(name)[r])) && MayLookUp(ExtWith(name), r.path)
  {
    ExtNames(name);
    hide ExternalName, FullPath;
    assert r.path == "a" || r.path == "ext" || r.path == "ext." + name || r.path == name;
  }

  lemma ExtNames(name: string)
    requires name == "a" || name == "b"
    ensures ExternalName("ext") == "ext" && ExternalName("ext." + name) == "ext"
    ensures FullPath("ext", name) == "ext." + name && FullPath(MAIN_PKG, "a") == "a"
  {
    assert ("ext." + name)[..3] == "ext" && ("ext." + name)[4..] == name;
  }

  /** One import without leading dots asks for its path. */
  lemma ImportAsks(w: World, pkgName: string, root: string, filename: string, path: string)
    requires path != "" && path[0] != '.'
    ensures forall stmts, r | ImportOf(path) in stmts && r == Request(pkgName, root, path) ::
      FileAsks(w, pkgName, root, filename, stmts, r)
    ensures Request(pkgName, root, AskedPath(w, root, filename, ImportOf(path).spec.path)) ==
      Request(pkgName, root, path)
  {
    AbsolutePath(w, root, filename, path);
  }

  lemma ExtAsks(name: string, r: Request)
    requires name == "a" || name == "b"
    ensures MainAsks(ExtWith(name), ExtProgram(name), r) <==>
      r in {InMain("a"), InMain("ext"), InMain("ext." + name)}
    ensures PkgAsks(ExtWith(name), PkgInfo("ext", "/ext", "ext", ["/ext/main.k"]), r) <==> r == InExt(name)
  {
    hide AskedPath;
    var w, prog := ExtWith(name), ExtProgram(name);
    var body := MainBody(w, prog, 0);
    ImportAsks(w, MAIN_PKG, "/", "/main.k", "a");
    ImportAsks(w, MAIN_PKG, "/", "/main.k", "ext");
    ImportAsks(w, MAIN_PKG, "/", "/main.k", "ext." + name);
    ImportAsks(w, "ext", "/ext", "/ext/main.k", name);
    assert body == [ImportOf("a"), ImportOf("ext"), ImportOf("ext." + name)];
    assert FileAsks(w, MAIN_PKG, "/", "/main.k", body, r) <==> r in {InMain("a"), InMain("ext"), InMain("ext." + name)};
    assert FileAsks(w, "ext", "/ext", "/ext/main.k", [ImportOf(name)], r) <==> r == InExt(name);
    hide FileAsks;
    var ext := PkgInfo("ext", "/ext", "ext", ["/ext/main.k"]);
    assert ext.kFiles[0] in w.sources && w.sources[ext.kFiles[0]] == [ImportOf(name)];
  }

  /** These are the requests that the program makes. */
  lemma ExtMakes(name: string, r: Request)
    requires name == "a" || name == "b"
    ensures Made(ExtWith(name), ExtProgram(name), r) <==> r in ExtFound(name)
  {
    hide MainAsks, PkgAsks, Find, ExtWith;
    var w, prog := ExtWith(name), ExtProgram(name);
    if r in ExtFound(name) {
      ExtFinds(name, r);
      ExtAsks(name, r);
      ExtFinds(name, InMain("ext"));
      ExtAsks(name, InMain("ext"));
      assert Asked(w, prog, InMain("ext"));
    }
    if Asked(w, prog, r) { ExtAsksOnly(name, r); }
  }

  least lemma ExtAsksOnly(name: string, r: Request)
    requires (name == "a" || name == "b") && Asked(ExtWith(name), ExtProgram(name), r)
    ensures r in ExtFound(name)
  {
    hide MainAsks, PkgAsks, Find, ExtWith, MayLookUp, ExtFound;
    var w, prog := ExtWith(name), ExtProgram(name);
    if MainAsks(w, prog, r) {
      ExtMainAsks(name, r);
    } else {
      var r0, info :|
        Asked#[_k - 1](w, prog, r0) && MayLookUp(w, r0.path) && Finds(w, r0, info) && PkgAsks(w, info, r);
      ExtAsksOnly#[_k - 1](name, r0);
      ExtFinds(name, r0);
      ExtPackagesAsk(name, r0, r);
    }
  }

  lemma ExtMainAsks(name: string, r: Request)
    requires (name == "a" || name == "b") && MainAsks(ExtWith(name), ExtProgram(name), r)
    ensures r in ExtFound(name)
  {
    hide MainAsks, PkgAsks, ExtWith;
    ExtAsks(name, r);
  }

  lemma ExtPackagesAsk(name: string, r0: Request, r: Request)
    requires (name == "a" || name == "b") && r0 in ExtFound(name)
    requires PkgAsks(ExtWith(name), ExtFound(name)[r0], r)
    ensures r in ExtFound(name)
  {
    hide MainAsks, PkgAsks, ExtWith;
    var info := ExtFound(name)[r0];
    if r0 == InMain("ext") { ExtAsks(name, r); } else { AsksNothing(name, info, r); }
  }

  lemma AsksNothing(name: string, info: PkgInfo, r: Request)
    requires info.kFiles == ["/a.k"] || info.kFiles == ["/ext/part.k"]
    ensures !PkgAsks(ExtWith(name), info, r)
  {
  }

  method NewRun(w: World, prog: Program) returns (loader: Loader.Loader)
    requires prog.kFiles == ["/main.k"]
    ensures fresh(loader) && loader.world == w && Valid(w, prog, loader.Now())
    ensures loader.pkgs.Keys == {MAIN_PKG} && loader.missingPkgs == []
  {
    NothingParsed();
    FilesParsedPush([], MAIN_PKG, "/main.k");
    loader := new Loader.Loader(w);
    loader.pkgs := map[MAIN_PKG := []];
    loader.log := [] + [(MAIN_PKG, "/main.k")];
    Loader.ValidStart(w, prog, loader.Now());
  }

  /** The same import inside `ext` in two runs of the program. After the main package's `a` was loaded it is left
      alone, and so names that one; before, it finds and names `ext.a`. */
  method SamePathInTwoOrders() returns (after: Result<Option<PkgInfo>, string>, before: Result<Option<PkgInfo>, string>)
    ensures after == Ok(None)
    ensures before == Ok(Some(PkgInfo("ext", "/ext", "ext.a", ["/ext/part.k"])))
  {
    hide Valid, Loadable, Find, NewFrom, Grown, Asked, ExtWith;
    var w, prog := ExtWith("a"), ExtProgram("a");
    ExtMakes("a", InMain("a"));
    ExtMakes("a", InExt("a"));
    ExtFinds("a", InMain("a"));
    ExtFinds("a", InExt("a"));
    assert "ext." + "a" == "ext.a";
    ExtLoadable("a");
    var late := NewRun(w, prog);
    var main := late.LoadPackage(InMain("a"), prog);
    after := late.LoadPackage(InExt("a"), prog);
    var early := NewRun(w, prog);
    before := early.LoadPackage(InExt("a"), prog);
  }

  lemma ExtLoadable(name: string)
    requires name == "a" || name == "b"
    ensures Loadable(ExtWith(name)) && ExtWith(name).loadPackages
  {
  }

  // ----- when it does not decide -----

  /** Names are unambiguous among the requests that the program makes: two packages never have one name, no
      package has a name that is not looked up, whoever asks for the name of a package finds that package, and a
      path under which a package with files is found never finds one without. */
  ghost predicate Unambiguous(w: World, prog: Program)
  {
    && (forall r1, i1, r2, i2 | Made(w, prog, r1) && Made(w, prog, r2)
          && Finds(w, r1, i1) && Finds(w, r2, i2) && i1.pkgPath == i2.pkgPath :: i1 == i2)
    && (forall r, i | Made(w, prog, r) && Finds(w, r, i) :: MayLookUp(w, i.pkgPath))
    && (forall r, r0, i0 | Made(w, prog, r) && Made(w, prog, r0) && Finds(w, r0, i0) && i0.pkgPath == r.path ::
          Finds(w, r, i0))
    && (forall r, i, r0, i0 | Made(w, prog, r) && Made(w, prog, r0) && Finds(w, r, i) && Finds(w, r0, i0)
          && r0.path == r.path && i0.kFiles == [] :: i.kFiles == [])
  }

  /** The program above is unambiguous when the package inside `ext` has a name of its own. */
  lemma OwnNameIsUnambiguous()
    ensures Unambiguous(ExtWith("b"), ExtProgram("b"))
  {
    hide Made, Find, ExtWith, ExtFound, PathsApart, Unambiguous;
    var w, prog, found := ExtWith("b"), ExtProgram("b"), ExtFound("b");
    forall r ensures Made(w, prog, r) <==> r in found { ExtMakes("b", r); }
    forall r | r in found ensures Finds(w, r, found[r]) { ExtFinds("b", r); }
    OwnPathsApart();
    ApartIsUnambiguous(w, prog, found);
  }

  /** With `a` in both it is not. */
  lemma SharedNameIsAmbiguous()
    ensures !Unambiguous(ExtWith("a"), ExtProgram("a"))
  {
    hide Made, Find, ExtWith, Unambiguous;
    var w, prog, inMain, inExt := ExtWith("a"), ExtProgram("a"), InMain("a"), InExt("a");
    ExtMakes("a", inMain);
    ExtMakes("a", inExt);
    ExtFinds("a", inMain);
    ExtFinds("a", inExt);
    TwoForOneName(w, prog, inExt, ExtFound("a")[inExt], inMain, ExtFound("a")[inMain]);
  }

  lemma TwoForOneName(w: World, prog: Program, r: Request, i: PkgInfo, r0: Request, i0: PkgInfo)
    requires Made(w, prog, r) && Made(w, prog, r0) && Finds(w, r, i) && Finds(w, r0, i0)
    requires i0.pkgPath == r.path && i != i0
    ensures !Unambiguous(w, prog)
  {
    hide Made, Find;
  }

  ghost predicate PathsApart(w: World, found: map<Request, PkgInfo>)
  {
    forall r | r in found :: MayLookUp(w, found[r].pkgPath) && found[r].kFiles != []
      && forall r0 | r0 in found && (found[r0].pkgPath == found[r].pkgPath || found[r0].pkgPath == r.path) ::
        found[r0] == found[r]
  }

  lemma OwnPathsApart()
    ensures PathsApart(ExtWith("b"), ExtFound("b"))
  {
    var found := ExtFound("b");
    assert "ext." + "b" == "ext.b";
    forall r | r in found ensures MayLookUp(ExtWith("b"), found[r].pkgPath) && found[r].kFiles != [] {
      hide ExtWith;
      ExtFinds("b", InMain(found[r].pkgPath));
    }
    hide ExtWith, MayLookUp;
  }

  lemma ApartIsUnambiguous(w: World, prog: Program, found: map<Request, PkgInfo>)
    requires forall r :: Made(w, prog, r) <==> r in found
    requires forall r | r in found :: Finds(w, r, found[r])
    requires PathsApart(w, found)
    ensures Unambiguous(w, prog)
  {
    hide Made, Find, MayLookUp;
    forall r, i ensures Made(w, prog, r) && Finds(w, r, i) <==> r in found && i == found[r] {
      assert r in found ==> Finds(w, r, found[r]);
    }
    hide Finds;
  }
  // ----- one run of an unambiguous program -----

  /** A run that loads packages. */
  ghost predicate Run(w: World, prog: Program, st: State)
  {
    w.loadPackages && Loaded(w, prog, st)
  }

  /** A package that some request of the program finds with files. */
  ghost predicate Wanted(w: World, prog: Program, info: PkgInfo)
  {
    info.kFiles != [] && exists r :: Made(w, prog, r) && Finds(w, r, info)
  }

  /** The path that a request names, whatever has been loaded before: that of the package it finds. */
  function Target(w: World, r: Request): string
  {
    match Find(w, r)
    case Ok(Some(info)) => if MayLookUp(w, r.path) && info.kFiles != [] then info.pkgPath else r.path
    case _ => r.path
  }

  lemma MainIsSettled(w: World, prog: Program, st: State)
    requires Run(w, prog, st)
    ensures MAIN_PKG in st.pkgs && SettledMain(w, prog, st.pkgs[MAIN_PKG], st.Now())
    ensures forall q | q in st.missing :: MissingForAReason(w, prog, q)
  {
    hide SettledMain, Reachable, FilesParsed, ValidEntry, Complete, MissingForAReason, DiagnosedForAReason;
  }

  /** A loaded package is wanted, and settled. */
  lemma KeyIsWanted(w: World, prog: Program, st: State, k: string) returns (info: PkgInfo)
    requires Run(w, prog, st) && k in st.pkgs && k != MAIN_PKG
    ensures Wanted(w, prog, info) && info.pkgPath == k && SettledPackage(w, info, st.pkgs[k], st.Now())
  {
    hide SettledPackage, SettledMain, Reachable, FilesParsed, Find, ValidReasons, Made;
    assert ValidEntry(w, k, st.requests[k], st.pkgs[k], st.Now()) && Complete(k, st.pkgs[k]);
    assert Made(w, prog, st.requests[k]);
    info :| LoadedAs(w, st.requests[k], k, info)
      && (st.pkgs[k] != [] ==> SettledPackage(w, info, st.pkgs[k], st.Now()));
  }

  /** A loaded package with the path of one that a request finds is that one. */
  lemma KeyIsFound(w: World, prog: Program, st: State, r: Request, info: PkgInfo)
    requires Run(w, prog, st) && Unambiguous(w, prog)
    requires Made(w, prog, r) && Finds(w, r, info) && info.pkgPath in st.pkgs
    ensures info.kFiles != [] && SettledPackage(w, info, st.pkgs[info.pkgPath], st.Now())
  {
    hide Run, Find, SettledPackage, Made;
    assert MayLookUp(w, info.pkgPath);
    var key := KeyIsWanted(w, prog, st, info.pkgPath);
  }

  /** The path of an import is a loaded package only when its request finds that package. */
  lemma PathIsFound(w: World, prog: Program, st: State, r: Request, info: PkgInfo)
    requires Run(w, prog, st) && Unambiguous(w, prog)
    requires Made(w, prog, r) && Finds(w, r, info) && r.path in st.pkgs
    ensures info.pkgPath == r.path
  {
    hide Run, Find, SettledPackage, Asked;
    var key := KeyIsWanted(w, prog, st, r.path);
    hide Made;
  }

  lemma FoundIsNotMissing(w: World, prog: Program, st: State, r: Request, info: PkgInfo)
    requires Run(w, prog, st) && Unambiguous(w, prog)
    requires Made(w, prog, r) && Finds(w, r, info) && info.kFiles != []
    ensures r.path !in st.missing
  {
    hide Run, Find, Made, SettledMain;
    assert !MissingForAReason(w, prog, r.path);
    hide MissingForAReason;
    MainIsSettled(w, prog, st);
  }

  /** What a settled request finds is loaded, and the import names it. */
  lemma FoundIsLoaded(w: World, prog: Program, st: State, r: Request, info: PkgInfo, out: ImportStmt)
    requires Run(w, prog, st) && Unambiguous(w, prog) && SettledImport(w, r, out, st.Now())
    requires Made(w, prog, r) && Finds(w, r, info) && info.kFiles != []
    ensures info.pkgPath in st.pkgs && out.path == info.pkgPath
  {
    hide Find, Loaded, Asked, Unambiguous;
    FoundIsNotMissing(w, prog, st, r, info);
    if r.path in st.pkgs { PathIsFound(w, prog, st, r, info); }
  }

  /** In an unambiguous program every import names its target, in whatever order things are loaded. */
  lemma NamesItsTarget(w: World, prog: Program, st: State, r: Request, out: ImportStmt)
    requires Run(w, prog, st) && Unambiguous(w, prog) && Asked(w, prog, r) && SettledImport(w, r, out, st.Now())
    ensures out.path == Target(w, r)
  {
    hide Find, Loaded, Asked, Unambiguous, Ignored, LeftAlone;
    if MayLookUp(w, r.path) && Find(w, r).Ok? && Find(w, r).value.Some? {
      var info := Find(w, r).value.value;
      if info.kFiles != [] {
        FoundIsLoaded(w, prog, st, r, info, out);
      } else if info.pkgPath in st.pkgs {
        KeyIsFound(w, prog, st, r, info);
      }
    }
  }

  /** What an import of a settled module asks for. */
  lemma ModuleAsks(w: World, pkgName: string, root: string, src: seq<Stmt>, m: Module, l: Ledger, q: string)
    returns (r: Request, out: ImportStmt)
    requires SettledModule(w, pkgName, root, src, m, l) && BodyImports(m.body, q)
    ensures FileAsks(w, pkgName, root, m.filename, src, r) && SettledImport(w, r, out, l) && out.path == q
  {
    var j :| 0 <= j < |m.body| && m.body[j].Import? && m.body[j].spec.path == q;
    assert SettledStmt(w, pkgName, root, m.filename, src[j], m.body[j], l);
    out := m.body[j].spec;
    r := Request(pkgName, root, AskedPath(w, root, m.filename, src[j].spec.path));
    assert src[j] in src;
  }

  /** Every request of a file is settled in its module. */
  lemma AskedIsSettled(w: World, pkgName: string, root: string, src: seq<Stmt>, m: Module, l: Ledger, r: Request)
    returns (out: ImportStmt)
    requires SettledModule(w, pkgName, root, src, m, l) && FileAsks(w, pkgName, root, m.filename, src, r)
    ensures SettledImport(w, r, out, l) && BodyImports(m.body, out.path)
  {
    var s :| s in src && s.Import? && r == Request(pkgName, root, AskedPath(w, root, m.filename, s.spec.path));
    var j :| 0 <= j < |src| && src[j] == s;
    assert SettledStmt(w, pkgName, root, m.filename, src[j], m.body[j], l);
    out := m.body[j].spec;
  }

  lemma MainRequest(w: World, prog: Program, mods: seq<Module>, l: Ledger, r: Request) returns (out: ImportStmt)
    requires SettledMain(w, prog, mods, l) && MainAsks(w, prog, r)
    ensures SettledImport(w, r, out, l)
  {
    hide SettledModule, FileAsks, SettledImport, BodyImports, MainBody, HasMainBody;
    var i :| 0 <= i < |prog.kFiles| && HasMainBody(w, prog, i)
      && FileAsks(w, MAIN_PKG, prog.root, prog.kFiles[i], MainBody(w, prog, i), r);
    out := AskedIsSettled(w, MAIN_PKG, prog.root, MainBody(w, prog, i), mods[i], l, r);
  }

  lemma PkgRequest(w: World, info: PkgInfo, mods: seq<Module>, l: Ledger, r: Request) returns (out: ImportStmt)
    requires SettledPackage(w, info, mods, l) && PkgAsks(w, info, r)
    ensures SettledImport(w, r, out, l)
  {
    hide SettledModule, FileAsks, SettledImport, BodyImports;
    var i :| 0 <= i < |info.kFiles| && info.kFiles[i] in w.sources
      && FileAsks(w, info.pkgName, info.pkgRoot, info.kFiles[i], w.sources[info.kFiles[i]], r);
    out := AskedIsSettled(w, info.pkgName, info.pkgRoot, w.sources[info.kFiles[i]], mods[i], l, r);
  }

  /** Every request that the program makes is settled somewhere in the run. */
  least lemma EveryRequestIsSettled(w: World, prog: Program, st: State, r: Request)
    requires Asked(w, prog, r) && Run(w, prog, st) && Unambiguous(w, prog)
    ensures exists out :: SettledImport(w, r, out, st.Now())
  {
    hide MainAsks, PkgAsks, Find, Run, Unambiguous, SettledImport, SettledMain, SettledPackage, MayLookUp;
    MainIsSettled(w, prog, st);
    if MainAsks(w, prog, r) {
      var out := MainRequest(w, prog, st.pkgs[MAIN_PKG], st.Now(), r);
    } else {
      var r0, info :|
        Asked#[_k - 1](w, prog, r0) && MayLookUp(w, r0.path) && Finds(w, r0, info) && PkgAsks(w, info, r);
      EveryRequestIsSettled#[_k - 1](w, prog, st, r0);
      var out0 :| SettledImport(w, r0, out0, st.Now());
      assert Made(w, prog, r0) && info.kFiles != [] by { AsksFromFiles(w, info, r); }
      FoundIsLoaded(w, prog, st, r0, info, out0);
      KeyIsFound(w, prog, st, r0, info);
      var out := PkgRequest(w, info, st.pkgs[info.pkgPath], st.Now(), r);
    }
  }

  lemma AsksFromFiles(w: World, info: PkgInfo, r: Request)
    requires PkgAsks(w, info, r)
    ensures info.kFiles != []
  {
  }

  /** An unambiguous program loads exactly the packages that its requests find with files, each settled. */
  lemma LoadedIsWanted(w: World, prog: Program, st: State)
    requires Run(w, prog, st) && Unambiguous(w, prog)
    ensures forall k :: k in st.pkgs <==> k == MAIN_PKG || exists info :: Wanted(w, prog, info) && info.pkgPath == k
    ensures forall info | Wanted(w, prog, info) ::
      SettledPackage(w, info, st.pkgs[info.pkgPath], st.Now())
  {
    hide Asked, Find, Run, Unambiguous, SettledImport, SettledMain, SettledPackage, MayLookUp;
    MainIsSettled(w, prog, st);
    forall k | k in st.pkgs && k != MAIN_PKG ensures exists info :: Wanted(w, prog, info) && info.pkgPath == k {
      var info := KeyIsWanted(w, prog, st, k);
    }
    forall info | Wanted(w, prog, info)
      ensures info.pkgPath in st.pkgs && SettledPackage(w, info, st.pkgs[info.pkgPath], st.Now())
    {
      var r :| Made(w, prog, r) && Finds(w, r, info);
      EveryRequestIsSettled(w, prog, st, r);
      var out :| SettledImport(w, r, out, st.Now());
      FoundIsLoaded(w, prog, st, r, info, out);
      KeyIsFound(w, prog, st, r, info);
    }
  }

  // ----- two orders of the statements -----

  /** The two worlds have the same files with the same statements, in any order. */
  ghost predicate Reordered(w1: World, w2: World)
  {
    && w2 == w1.(sources := w2.sources) && w2.sources.Keys == w1.sources.Keys
    && forall f, s | f in w1.sources :: s in w1.sources[f] <==> s in w2.sources[f]
  }

  ghost predicate ReorderedProgram(prog1: Program, prog2: Program)
  {
    && prog2 == prog1.(codes := prog2.codes) && |prog1.codes| == |prog2.codes|
    && forall i, s | 0 <= i < |prog1.codes| :: s in prog1.codes[i] <==> s in prog2.codes[i]
  }

  /** Both: two versions of one program. */
  ghost predicate Versions(w1: World, prog1: Program, w2: World, prog2: Program)
  {
    Reordered(w1, w2) && ReorderedProgram(prog1, prog2)
  }

  lemma SameFind(w1: World, w2: World, r: Request)
    requires Reordered(w1, w2)
    ensures Find(w1, r) == Find(w2, r) && (MayLookUp(w1, r.path) <==> MayLookUp(w2, r.path))
    ensures Target(w1, r) == Target(w2, r)
  {
  }

  lemma SameFixed(w1: World, w2: World, root: string, filename: string, path: string)
    requires Reordered(w1, w2)
    ensures AskedPath(w1, root, filename, path) == AskedPath(w2, root, filename, path)
  {
  }

  lemma FileAsksInBoth(w1: World, w2: World, pkgName: string, root: string, filename: string,
                       src1: seq<Stmt>, src2: seq<Stmt>, r: Request)
    requires Reordered(w1, w2) && FileAsks(w1, pkgName, root, filename, src1, r)
    requires forall s | s in src1 :: s in src2
    ensures FileAsks(w2, pkgName, root, filename, src2, r)
  {
    var s :| s in src1 && s.Import? && r == Request(pkgName, root, AskedPath(w1, root, filename, s.spec.path));
    SameFixed(w1, w2, root, filename, s.spec.path);
  }

  lemma MainAsksInBoth(w1: World, prog1: Program, w2: World, prog2: Program, r: Request)
    requires Versions(w1, prog1, w2, prog2) && MainAsks(w1, prog1, r)
    ensures MainAsks(w2, prog2, r)
  {
    hide FileAsks;
    var i :| 0 <= i < |prog1.kFiles| && HasMainBody(w1, prog1, i)
      && FileAsks(w1, MAIN_PKG, prog1.root, prog1.kFiles[i], MainBody(w1, prog1, i), r);
    FileAsksInBoth(w1, w2, MAIN_PKG, prog1.root, prog1.kFiles[i], MainBody(w1, prog1, i), MainBody(w2, prog2, i), r);
  }

  lemma PkgAsksInBoth(w1: World, w2: World, info: PkgInfo, r: Request)
    requires Reordered(w1, w2) && PkgAsks(w1, info, r)
    ensures PkgAsks(w2, info, r)
  {
    hide FileAsks;
    var i :| 0 <= i < |info.kFiles| && info.kFiles[i] in w1.sources
      && FileAsks(w1, info.pkgName, info.pkgRoot, info.kFiles[i], w1.sources[info.kFiles[i]], r);
    var f := info.kFiles[i];
    FileAsksInBoth(w1, w2, info.pkgName, info.pkgRoot, f, w1.sources[f], w2.sources[f], r);
  }

  least lemma AskedInBoth(w1: World, prog1: Program, w2: World, prog2: Program, r: Request)
    requires Asked(w1, prog1, r) && Versions(w1, prog1, w2, prog2)
    ensures Asked(w2, prog2, r)
  {
    hide MainAsks, PkgAsks, Find, MayLookUp, Target;
    if MainAsks(w1, prog1, r) {
      MainAsksInBoth(w1, prog1, w2, prog2, r);
    } else {
      var r0, info :|
        Asked#[_k - 1](w1, prog1, r0) && MayLookUp(w1, r0.path) && Finds(w1, r0, info) && PkgAsks(w1, info, r);
      AskedInBoth#[_k - 1](w1, prog1, w2, prog2, r0);
      SameFind(w1, w2, r0);
      PkgAsksInBoth(w1, w2, info, r);
      assert Finds(w2, r0, info);
    }
  }

  lemma MadeInBoth(w1: World, prog1: Program, w2: World, prog2: Program)
    requires Versions(w1, prog1, w2, prog2)
    ensures forall r :: Made(w1, prog1, r) <==> Made(w2, prog2, r)
    ensures forall r, i :: Finds(w1, r, i) <==> Finds(w2, r, i)
    ensures forall path :: MayLookUp(w1, path) <==> MayLookUp(w2, path)
  {
    hide Asked, Find, MayLookUp, Target;
    forall path ensures MayLookUp(w1, path) <==> MayLookUp(w2, path) { SameFind(w1, w2, Request("", "", path)); }
    forall r, i ensures Finds(w1, r, i) <==> Finds(w2, r, i) { SameFind(w1, w2, r); }
    forall r ensures Asked(w1, prog1, r) <==> Asked(w2, prog2, r) {
      if Asked(w1, prog1, r) { AskedInBoth(w1, prog1, w2, prog2, r); }
      if Asked(w2, prog2, r) { AskedInBoth(w2, prog2, w1, prog1, r); }
    }
  }

  /** Whether names are unambiguous does not depend on the order of the statements. */
  lemma UnambiguousInBoth(w1: World, prog1: Program, w2: World, prog2: Program)
    requires Versions(w1, prog1, w2, prog2) && Unambiguous(w1, prog1)
    ensures Unambiguous(w2, prog2)
  {
    MadeInBoth(w1, prog1, w2, prog2);
    hide Made, Finds, MayLookUp, Versions;
  }

  /** Two runs of an unambiguous program whose statements are in different orders. */
  ghost predicate TwoRuns(w1: World, prog1: Program, st1: State, w2: World, prog2: Program, st2: State)
  {
    && Run(w1, prog1, st1) && Run(w2, prog2, st2) && Versions(w1, prog1, w2, prog2)
    && Unambiguous(w1, prog1) && Unambiguous(w2, prog2)
  }

  lemma AreTwoRuns(w1: World, prog1: Program, st1: State, w2: World, prog2: Program, st2: State)
    requires Run(w1, prog1, st1) && Run(w2, prog2, st2)
    requires Versions(w1, prog1, w2, prog2) && Unambiguous(w1, prog1)
    ensures TwoRuns(w1, prog1, st1, w2, prog2, st2) && TwoRuns(w2, prog2, st2, w1, prog1, st1)
  {
    hide Run, Unambiguous;
    UnambiguousInBoth(w1, prog1, w2, prog2);
  }

  /** When names are unambiguous, the order of the statements does not decide which packages are loaded. */
  lemma LoadedSetIsFixed(w1: World, prog1: Program, st1: State, w2: World, prog2: Program, st2: State)
    requires Run(w1, prog1, st1) && Run(w2, prog2, st2)
    requires Versions(w1, prog1, w2, prog2) && Unambiguous(w1, prog1)
    ensures st1.pkgs.Keys == st2.pkgs.Keys
  {
    UnambiguousInBoth(w1, prog1, w2, prog2);
    LoadedIsWanted(w1, prog1, st1);
    LoadedIsWanted(w2, prog2, st2);
    MadeInBoth(w1, prog1, w2, prog2);
    hide Made, Finds, MayLookUp, Versions, Run, Unambiguous;
    assert forall info :: Wanted(w1, prog1, info) <==> Wanted(w2, prog2, info);
  }

  /** An import of a module in one run is an import of the same module in the other run. */
  lemma ModuleEdge(w1: World, prog1: Program, st1: State, w2: World, prog2: Program, st2: State, pkgName: string,
                   root: string, src1: seq<Stmt>, m1: Module, src2: seq<Stmt>, m2: Module, q: string)
    requires TwoRuns(w1, prog1, st1, w2, prog2, st2)
    requires SettledModule(w1, pkgName, root, src1, m1, st1.Now())
    requires SettledModule(w2, pkgName, root, src2, m2, st2.Now())
    requires m1.filename == m2.filename && (forall s | s in src1 :: s in src2) && BodyImports(m1.body, q)
    requires Loader.FileAsked(w1, prog1, pkgName, root, m1.filename, src1)
    ensures BodyImports(m2.body, q)
  {
    hide Run, Unambiguous, SettledModule, SettledImport, BodyImports, FileAsks, Target, Asked;
    var r, out1 := ModuleAsks(w1, pkgName, root, src1, m1, st1.Now(), q);
    FileAsksInBoth(w1, w2, pkgName, root, m1.filename, src1, src2, r);
    var out2 := AskedIsSettled(w2, pkgName, root, src2, m2, st2.Now(), r);
    AskedInBoth(w1, prog1, w2, prog2, r);
    NamesItsTarget(w1, prog1, st1, r, out1);
    NamesItsTarget(w2, prog2, st2, r, out2);
    SameFind(w1, w2, r);
  }

  /** The same files, and whatever one imports in the first list it imports in the second one. */
  ghost predicate ImportsWithin(mods1: seq<Module>, mods2: seq<Module>)
  {
    |mods1| == |mods2| && forall i, q | 0 <= i < |mods1| ::
      mods1[i].filename == mods2[i].filename && (BodyImports(mods1[i].body, q) ==> BodyImports(mods2[i].body, q))
  }

  lemma MainImportsWithin(w1: World, prog1: Program, st1: State, w2: World, prog2: Program, st2: State)
    requires TwoRuns(w1, prog1, st1, w2, prog2, st2)
    ensures MAIN_PKG in st1.pkgs && MAIN_PKG in st2.pkgs
    ensures ImportsWithin(st1.pkgs[MAIN_PKG], st2.pkgs[MAIN_PKG])
  {
    hide Run, Unambiguous, SettledModule, BodyImports, FileAsks, Asked;
    MainIsSettled(w1, prog1, st1);
    MainIsSettled(w2, prog2, st2);
    var mods1, mods2 := st1.pkgs[MAIN_PKG], st2.pkgs[MAIN_PKG];
    forall i, q | 0 <= i < |mods1| && BodyImports(mods1[i].body, q) ensures BodyImports(mods2[i].body, q) {
      var src1, src2 := MainBody(w1, prog1, i), MainBody(w2, prog2, i);
      assert Loader.FileAsked(w1, prog1, MAIN_PKG, prog1.root, mods1[i].filename, src1) by {
        Loader.MainFilesAsked(w1, prog1, mods1, seq(|mods1|, j requires 0 <= j < |mods1| => MainBody(w1, prog1, j)));
      }
      ModuleEdge(w1, prog1, st1, w2, prog2, st2, MAIN_PKG, prog1.root, src1, mods1[i], src2, mods2[i], q);
    }
  }

  lemma PkgImportsWithin(w1: World, prog1: Program, st1: State, w2: World, prog2: Program, st2: State, info: PkgInfo)
    requires TwoRuns(w1, prog1, st1, w2, prog2, st2) && Wanted(w1, prog1, info)
    ensures info.pkgPath in st1.pkgs && info.pkgPath in st2.pkgs
    ensures ImportsWithin(st1.pkgs[info.pkgPath], st2.pkgs[info.pkgPath])
  {
    hide Run, Unambiguous, SettledModule, BodyImports, FileAsks, Made, Finds;
    MadeInBoth(w1, prog1, w2, prog2);
    assert Wanted(w2, prog2, info);
    LoadedIsWanted(w1, prog1, st1);
    LoadedIsWanted(w2, prog2, st2);
    var mods1, mods2 := st1.pkgs[info.pkgPath], st2.pkgs[info.pkgPath];
    var req :| Made(w1, prog1, req) && Finds(w1, req, info);
    forall i, q | 0 <= i < |mods1| && BodyImports(mods1[i].body, q) ensures BodyImports(mods2[i].body, q) {
      var src1, src2 := w1.sources[info.kFiles[i]], w2.sources[info.kFiles[i]];
      assert Loader.FileAsked(w1, prog1, info.pkgName, info.pkgRoot, mods1[i].filename, src1) by {
        Loader.PkgFilesAsked(w1, prog1, req, info, mods1,
                             seq(|mods1|, j requires 0 <= j < |mods1| => w1.sources[info.kFiles[j]]));
      }
      ModuleEdge(w1, prog1, st1, w2, prog2, st2, info.pkgName, info.pkgRoot, src1, mods1[i], src2, mods2[i], q);
    }
  }

  lemma EveryImportWithin(w1: World, prog1: Program, st1: State, w2: World, prog2: Program, st2: State)
    requires TwoRuns(w1, prog1, st1, w2, prog2, st2)
    ensures forall k | k in st1.pkgs :: k in st2.pkgs && ImportsWithin(st1.pkgs[k], st2.pkgs[k])
  {
    hide Versions, Unambiguous, Run, ImportsWithin;
    forall k | k in st1.pkgs ensures k in st2.pkgs && ImportsWithin(st1.pkgs[k], st2.pkgs[k]) {
      MainImportsWithin(w1, prog1, st1, w2, prog2, st2);
      if k != MAIN_PKG {
        var info := KeyIsWanted(w1, prog1, st1, k);
        PkgImportsWithin(w1, prog1, st1, w2, prog2, st2, info);
      }
    }
  }

  /** Nor does it decide what the imports name: file by file, the two runs import the same paths. */
  lemma ImportsAreFixed(w1: World, prog1: Program, st1: State, w2: World, prog2: Program, st2: State)
    requires Run(w1, prog1, st1) && Run(w2, prog2, st2)
    requires Versions(w1, prog1, w2, prog2) && Unambiguous(w1, prog1)
    ensures forall k | k in st1.pkgs && k in st2.pkgs ::
      ImportsWithin(st1.pkgs[k], st2.pkgs[k]) && ImportsWithin(st2.pkgs[k], st1.pkgs[k])
  {
    hide TwoRuns, Run, ImportsWithin, Unambiguous, Versions;
    AreTwoRuns(w1, prog1, st1, w2, prog2, st2);
    EveryImportWithin(w1, prog1, st1, w2, prog2, st2);
    EveryImportWithin(w2, prog2, st2, w1, prog1, st1);
  }
}
