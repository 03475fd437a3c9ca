/** What the import statements of a loaded program have become, in terms of the directories of the files,
    kclvm/parser/src/lib.rs:384-417 and 476-488, kclvm/config/src/vfs.rs:30-98. */
module LoaderPaths {
  import opened Wrappers
  import opened LoaderSpec
  import opened LoaderOrder
  import opened Strings
  import Loader
  import Vfs

  // ----- every loaded program -----

  /** An import of `path` in a file of a directory in which fixing pops segments, and doing it twice is harmless. */
  predicate Resolves(w: World, root: string, filename: string, path: string, found: string)
  {
    var dir := Vfs.DirPkgPath(w.relDir(root, filename));
    && !Vfs.TrimsAtRoot(dir, path) && Vfs.SecondFixIsHarmless(dir, path)
    && found == Vfs.StackResolve(Vfs.Segments(dir), path)
  }

  lemma ResolvesIsAsked(w: World, root: string, filename: string, path: string, found: string)
    requires Resolves(w, root, filename, path, found)
    ensures AskedPath(w, root, filename, path) == found
  {
    var dir := Vfs.DirPkgPath(w.relDir(root, filename));
    Vfs.FixedIsStackResolve(dir, path);
    Vfs.FixingTwice(w.relDir(root, filename), path);
  }

  /** An import of a settled module has the path that its leading dots lead to, or that path behind the name of
      the package it is in, when there is such a package under the same root. */
  lemma ImportBecomes(w: World, pkgName: string, root: string, src: seq<Stmt>, m: Module, l: Ledger, j: nat,
                      found: string)
    requires SettledModule(w, pkgName, root, src, m, l) && j < |src| && src[j].Import?
    requires Resolves(w, root, m.filename, src[j].spec.path, found)
    ensures m.body[j].Import? && m.body[j].spec.name == src[j].spec.name
    ensures var out := m.body[j].spec;
      || out.path == found
      || (w.loadPackages && pkgName != MAIN_PKG && (root, found) in w.internal && out.path == pkgName + "." + found)
    ensures pkgName == MAIN_PKG && found !in w.external ==> m.body[j].spec.pkgName == MAIN_PKG
  {
    ResolvesIsAsked(w, root, m.filename, src[j].spec.path, found);
    hide AskedPath, Resolves;
    assert SettledStmt(w, pkgName, root, m.filename, src[j], m.body[j], l);
  }

  /** In a loaded program the imports of the main files have exactly these paths. */
  lemma MainImportBecomes(w: World, prog: Program, st: State, i: nat, j: nat, found: string)
    requires Loaded(w, prog, st) && i < |prog.kFiles| && HasMainBody(w, prog, i)
    requires j < |MainBody(w, prog, i)| && MainBody(w, prog, i)[j].Import?
    requires Resolves(w, prog.root, prog.kFiles[i], MainBody(w, prog, i)[j].spec.path, found)
    ensures MAIN_PKG in st.pkgs && i < |st.pkgs[MAIN_PKG]| && j < |st.pkgs[MAIN_PKG][i].body|
    ensures var src, out := MainBody(w, prog, i)[j], st.pkgs[MAIN_PKG][i].body[j];
      && out.Import? && out.spec.path == found && out.spec.name == src.spec.name
      && (found !in w.external ==> out.spec.pkgName == MAIN_PKG)
  {
    hide Resolves, SettledModule, Complete, Reachable, ValidEntry, ValidReasons, ValidRequests, FilesParsed, MainBody;
    var mods := st.pkgs[MAIN_PKG];
    assert SettledModule(w, MAIN_PKG, prog.root, MainBody(w, prog, i), mods[i], st.Now());
    hide Loaded;
    ImportBecomes(w, MAIN_PKG, prog.root, MainBody(w, prog, i), mods[i], st.Now(), j, found);
    SameSize(w, MAIN_PKG, prog.root, MainBody(w, prog, i), mods[i], st.Now());
  }

  /** And in the files of every other package: those paths, or the same behind the package's name. */
  lemma PkgImportBecomes(w: World, prog: Program, st: State, k: string, i: nat, j: nat, found: string)
    returns (info: PkgInfo)
    requires Loaded(w, prog, st) && k in st.pkgs && k != MAIN_PKG
    requires i < |st.pkgs[k]| && st.pkgs[k][i].filename in w.sources
    requires var src := w.sources[st.pkgs[k][i].filename]; j < |src| && src[j].Import?
    ensures info.pkgPath == k && (exists req :: Made(w, prog, req) && Finds(w, req, info))
    ensures Resolves(w, info.pkgRoot, st.pkgs[k][i].filename, w.sources[st.pkgs[k][i].filename][j].spec.path, found) ==>
      && j < |st.pkgs[k][i].body| && st.pkgs[k][i].body[j].Import?
      && var out := st.pkgs[k][i].body[j].spec;
      || out.path == found
      || (info.pkgName != MAIN_PKG && (info.pkgRoot, found) in w.internal && out.path == info.pkgName + "." + found)
  {
    hide Resolves, SettledModule, SettledMain, Reachable, ValidReasons, FilesParsed, Find, Made;
    var mods := st.pkgs[k];
    assert ValidEntry(w, k, st.requests[k], mods, st.Now()) && Complete(k, mods);
    assert Made(w, prog, st.requests[k]);
    info :| LoadedAs(w, st.requests[k], k, info) && (mods != [] ==> SettledPackage(w, info, mods, st.Now()));
    var src := w.sources[mods[i].filename];
    assert SettledModule(w, info.pkgName, info.pkgRoot, src, mods[i], st.Now());
    hide Loaded;
    if Resolves(w, info.pkgRoot, mods[i].filename, src[j].spec.path, found) {
      ImportBecomes(w, info.pkgName, info.pkgRoot, src, mods[i], st.Now(), j, found);
      SameSize(w, info.pkgName, info.pkgRoot, src, mods[i], st.Now());
    }
  }

  lemma SameSize(w: World, pkgName: string, root: string, src: seq<Stmt>, m: Module, l: Ledger)
    requires SettledModule(w, pkgName, root, src, m, l)
    ensures |m.body| == |src|
  {
  }

  /** With the directories written out: `n` leading dots leave `n - 1` of them. */
  lemma DotsResolve(w: World, root: string, filename: string, dirs: seq<string>, n: nat, name: string)
    requires Vfs.PlainNames(dirs) && w.relDir(root, filename) == Join(dirs, '/')
    requires name != "" && name[0] != '.' && name[|name| - 1] != '.'
    ensures Resolves(w, root, filename, seq(n, _ => '.') + name,
                     if n == 0 then name
                     else if n - 1 > |dirs| then ""
                     else Join(dirs[..|dirs| - (n - 1)] + [name], '.'))
  {
    Vfs.DirectoryPath(dirs, '/');
    var path := Vfs.Dots(n) + name;
    assert path == seq(n, _ => '.') + name;
    Vfs.ImportInDirectory(dirs, n, name);
    Vfs.FixedIsStackResolve(Join(dirs, '.'), path);
    Vfs.DotsLead(n, name);
    assert path[|path| - 1] != '.';
    hide Join;
    Vfs.FixingTwice(w.relDir(root, filename), path);
  }
  // ----- a run with relative imports -----

  function ImportAs(path: string, name: string, pkgName: string): Stmt { Import(ImportStmt(path, name, pkgName)) }

  /** The main file in `app` imports a package beside it, one above it, a plugin and a builtin package, and the
      first of these one that lies beside it. All of them can be found. */
  function Nested(): World
  {
    World(true, true, {"math"},
      map[("/", "app.sub") := Ok(["/app/sub/s.k"]), ("/", "app.base") := Ok(["/app/base/b.k"]),
          ("/", "sub") := Ok(["/sub/t.k"]), ("/", "math") := Ok(["/math/m.k"]),
          ("/", "kcl_plugin.hello") := Ok(["/kcl_plugin/hello/h.k"])],
      map[],
      map["/app/main.k" := [ImportAs(".sub", "sub", ""), ImportAs("..sub", "t", ""),
                            ImportAs("kcl_plugin.hello", "hello", ""), ImportAs("math", "math", ""), Other("x = 1")],
          "/app/sub/s.k" := [ImportAs("..base", "base", "")],
          "/app/base/b.k" := [], "/sub/t.k" := [], "/math/m.k" := [], "/kcl_plugin/hello/h.k" := []],
      (root, file) => if file == "/app/main.k" then "app" else if file == "/app/sub/s.k" then "app/sub" else "")
  }

  function NestedProgram(): Program { Program("/", ["/app/main.k"], []) }

  function NestedFound(): map<Request, PkgInfo>
  {
    map[InMain("app.sub") := PkgInfo(MAIN_PKG, "/", "app.sub", ["/app/sub/s.k"]),
        InMain("app.base") := PkgInfo(MAIN_PKG, "/", "app.base", ["/app/base/b.k"]),
        InMain("sub") := PkgInfo(MAIN_PKG, "/", "sub", ["/sub/t.k"])]
  }

  lemma NestedFinds(r: Request)
    requires r in NestedFound()
    ensures Find(Nested(), r) == Ok(Some(NestedFound()[r])) && MayLookUp(Nested(), r.path)
    ensures NestedFound()[r].pkgPath == r.path && NestedFound()[r].kFiles != []
  {
  }

  lemma NestedPaths()
    ensures Resolves(Nested(), "/", "/app/main.k", ".sub", "app.sub")
    ensures Resolves(Nested(), "/", "/app/main.k", "..sub", "sub")
    ensures Resolves(Nested(), "/", "/app/main.k", "kcl_plugin.hello", "kcl_plugin.hello")
    ensures Resolves(Nested(), "/", "/app/main.k", "math", "math")
    ensures Resolves(Nested(), "/", "/app/sub/s.k", "..base", "app.base")
  {
    InDirectories();
    InAppIs();
    hide Resolves, Vfs.PlainNames, Join, Nested;
    var w, main := Nested(), "/app/main.k";
    OneDot(w, main, ["app"], "sub");
    TwoDots(w, main, ["app"], "sub");
    NoDot(w, main, ["app"], "kcl_plugin.hello");
    NoDot(w, main, ["app"], "math");
    TwoDots(w, "/app/sub/s.k", ["app", "sub"], "base");
    hide *;
    assert "." + "sub" == ".sub" && ".." + "sub" == "..sub" && ".." + "base" == "..base";
  }

  lemma NoDot(w: World, filename: string, dirs: seq<string>, name: string)
    requires Vfs.PlainNames(dirs) && w.relDir("/", filename) == Join(dirs, '/')
    requires name != "" && name[0] != '.' && name[|name| - 1] != '.'
    ensures Resolves(w, "/", filename, name, name)
  {
    hide Resolves, Vfs.PlainNames, Join;
    DotsResolve(w, "/", filename, dirs, 0, name);
    assert seq(0, _ => '.') + name == name;
  }

  lemma OneDot(w: World, filename: string, dirs: seq<string>, name: string)
    requires Vfs.PlainNames(dirs) && w.relDir("/", filename) == Join(dirs, '/')
    requires name != "" && name[0] != '.' && name[|name| - 1] != '.'
    ensures Resolves(w, "/", filename, "." + name, Join(dirs + [name], '.'))
  {
    hide Resolves, Vfs.PlainNames, Join;
    DotsResolve(w, "/", filename, dirs, 1, name);
    assert seq(1, _ => '.') + name == "." + name && dirs[..|dirs| - 0] == dirs;
  }

  lemma TwoDots(w: World, filename: string, dirs: seq<string>, name: string)
    requires Vfs.PlainNames(dirs) && dirs != [] && w.relDir("/", filename) == Join(dirs, '/')
    requires name != "" && name[0] != '.' && name[|name| - 1] != '.'
    ensures Resolves(w, "/", filename, ".." + name, Join(dirs[..|dirs| - 1] + [name], '.'))
  {
    hide Resolves, Vfs.PlainNames, Join;
    DotsResolve(w, "/", filename, dirs, 2, name);
    assert seq(2, _ => '.') + name == ".." + name;
  }

  lemma InDirectories()
    ensures Nested().relDir("/", "/app/main.k") == Join(["app"], '/')
    ensures Nested().relDir("/", "/app/sub/s.k") == Join(["app", "sub"], '/')
    ensures Vfs.PlainNames(["app"]) && Vfs.PlainNames(["app", "sub"])
  {
    TwoNames("app", "sub", '/');
  }

  lemma InAppIs()
    ensures Join(["app"] + ["sub"], '.') == "app.sub" && Join(["app"][..0] + ["sub"], '.') == "sub"
    ensures Join(["app", "sub"][..1] + ["base"], '.') == "app.base"
  {
    assert ["app"] + ["sub"] == ["app", "sub"] && ["app"][..0] + ["sub"] == ["sub"];
    assert ["app", "sub"][..1] + ["base"] == ["app", "base"];
    TwoNames("app", "sub", '.');
    TwoNames("app", "base", '.');
  }

  lemma TwoNames(a: string, b: string, sep: char)
    ensures Join([a, b], sep) == a + [sep] + b
  {
    assert [a, b][1..] == [b];
  }

  lemma NestedAsked()
    ensures AskedPath(Nested(), "/", "/app/main.k", ".sub") == "app.sub"
    ensures AskedPath(Nested(), "/", "/app/main.k", "..sub") == "sub"
    ensures AskedPath(Nested(), "/", "/app/main.k", "kcl_plugin.hello") == "kcl_plugin.hello"
    ensures AskedPath(Nested(), "/", "/app/main.k", "math") == "math"
    ensures AskedPath(Nested(), "/", "/app/sub/s.k", "..base") == "app.base"
  {
    hide Resolves, AskedPath, Nested;
    NestedPaths();
    ResolvesIsAsked(Nested(), "/", "/app/main.k", ".sub", "app.sub");
    ResolvesIsAsked(Nested(), "/", "/app/main.k", "..sub", "sub");
    ResolvesIsAsked(Nested(), "/", "/app/main.k", "kcl_plugin.hello", "kcl_plugin.hello");
    ResolvesIsAsked(Nested(), "/", "/app/main.k", "math", "math");
    ResolvesIsAsked(Nested(), "/", "/app/sub/s.k", "..base", "app.base");
  }

  lemma NestedMainAsks(r: Request)
    ensures MainAsks(Nested(), NestedProgram(), r) <==>
      r in {InMain("app.sub"), InMain("sub"), InMain("kcl_plugin.hello"), InMain("math")}
  {
    hide AskedPath;
    NestedAsked();
    var w, body := Nested(), Nested().sources["/app/main.k"];
    assert MainBody(w, NestedProgram(), 0) == body;
    assert body[0] in body && body[1] in body && body[2] in body && body[3] in body;
    assert FileAsks(w, MAIN_PKG, "/", "/app/main.k", body, r) <==>
      r in {InMain("app.sub"), InMain("sub"), InMain("kcl_plugin.hello"), InMain("math")};
    hide FileAsks;
    assert NestedProgram().kFiles[0] == "/app/main.k" && HasMainBody(w, NestedProgram(), 0);
  }

  lemma NestedPkgAsks(r0: Request, r: Request)
    requires r0 in NestedFound()
    ensures PkgAsks(Nested(), NestedFound()[r0], r) <==> r0 == InMain("app.sub") && r == InMain("app.base")
  {
    hide AskedPath;
    NestedAsked();
    var w, info := Nested(), NestedFound()[r0];
    var f := info.kFiles[0];
    assert PkgAsks(w, info, r) <==> FileAsks(w, info.pkgName, info.pkgRoot, f, w.sources[f], r);
    if r0 == InMain("app.sub") {
      assert w.sources[f][0] in w.sources[f];
    }
  }

  /** What is never looked up there, although it could be found. */
  lemma NestedIgnores()
    ensures !MayLookUp(Nested(), "kcl_plugin.hello") && !MayLookUp(Nested(), "math")
  {
  }

  least lemma NestedAsksOnly(r: Request)
    requires Asked(Nested(), NestedProgram(), r)
    ensures r in NestedFound() || r in {InMain("kcl_plugin.hello"), InMain("math")}
  {
    hide MainAsks, PkgAsks, Find, Nested, MayLookUp;
    var w, prog := Nested(), NestedProgram();
    NestedMainAsks(r);
    NestedIgnores();
    if !MainAsks(w, prog, r) {
      var r0, info :|
        Asked#[_k - 1](w, prog, r0) && MayLookUp(w, r0.path) && Finds(w, r0, info) && PkgAsks(w, info, r);
      NestedAsksOnly#[_k - 1](r0);
      NestedFinds(r0);
      NestedPkgAsks(r0, r);
    }
  }

  lemma NestedMakes(r: Request)
    ensures Made(Nested(), NestedProgram(), r) <==> r in NestedFound()
  {
    hide MainAsks, PkgAsks, Find, Nested, MayLookUp;
    var w, prog, sub := Nested(), NestedProgram(), InMain("app.sub");
    NestedIgnores();
    if r in NestedFound() {
      NestedFinds(r);
      NestedFinds(sub);
      NestedMainAsks(r);
      NestedMainAsks(sub);
      NestedPkgAsks(sub, r);
      assert Asked(w, prog, sub);
    }
    if Asked(w, prog, r) { NestedAsksOnly(r); }
  }

  lemma NestedPathsApart()
    ensures PathsApart(Nested(), NestedFound())
  {
    hide Find, Nested, MayLookUp;
    forall r | r in NestedFound()
      ensures MayLookUp(Nested(), NestedFound()[r].pkgPath)
      ensures NestedFound()[r].pkgPath == r.path && NestedFound()[r].kFiles != []
    {
      NestedFinds(r);
    }
  }

  lemma NestedUnambiguous()
    ensures Unambiguous(Nested(), NestedProgram())
  {
    hide Made, Find, Nested, NestedFound, PathsApart, Unambiguous;
    forall r ensures Made(Nested(), NestedProgram(), r) <==> r in NestedFound() { NestedMakes(r); }
    forall r | r in NestedFound() ensures Finds(Nested(), r, NestedFound()[r]) { NestedFinds(r); }
    NestedPathsApart();
    ApartIsUnambiguous(Nested(), NestedProgram(), NestedFound());
  }
  /** A package asked for there is one of the three found. */
  lemma NestedWanted(info: PkgInfo)
    ensures Wanted(Nested(), NestedProgram(), info) <==> info in NestedFound().Values
  {
    hide Made, Find, Nested;
    var w, prog := Nested(), NestedProgram();
    forall r ensures Made(w, prog, r) <==> r in NestedFound() { NestedMakes(r); }
    forall r | r in NestedFound() ensures Find(w, r) == Ok(Some(NestedFound()[r])) && NestedFound()[r].kFiles != [] {
      NestedFinds(r);
    }
  }

  lemma NestedReasons(st: State)
    requires Loaded(Nested(), NestedProgram(), st)
    ensures st.missing == [] && st.diags == []
  {
    hide SettledMain, Reachable, FilesParsed, ValidEntry, Complete, ValidRequests;
    hide Find, Asked, Nested, IsPlugin, MayLookUp;
    var w, prog := Nested(), NestedProgram();
    forall r | Asked(w, prog, r) ensures r in NestedFound() || !MayLookUp(w, r.path) {
      NestedAsksOnly(r);
      NestedIgnores();
    }
    forall r | r in NestedFound() ensures Find(w, r) == Ok(Some(NestedFound()[r])) && NestedFound()[r].kFiles != [] {
      NestedFinds(r);
    }
    assert w.loadPlugins by { PluginsAreOn(); }
    assert st.missing != [] ==> MissingForAReason(w, prog, st.missing[0]);
    assert st.diags != [] ==> DiagnosedForAReason(w, prog, st.diags[0]);
  }

  lemma PluginsAreOn()
    ensures Nested().loadPlugins && Nested().loadPackages
  {
  }
  /** What the run must leave: four packages, and the imports with their paths fixed. */
  ghost predicate NestedResult(pkgs: Packages)
  {
    && pkgs.Keys == {"__main__", "app.sub", "app.base", "sub"}
    && pkgs["__main__"] == [Module("/app/main.k", "__main__", "__main__",
         [ImportAs("app.sub", "sub", "__main__"), ImportAs("sub", "t", "__main__"),
          ImportAs("kcl_plugin.hello", "hello", "__main__"), ImportAs("math", "math", "__main__"), Other("x = 1")])]
    && pkgs["app.sub"] == [Module("/app/sub/s.k", "app.sub", "", [ImportAs("app.base", "base", "__main__")])]
    && pkgs["app.base"] == [Module("/app/base/b.k", "app.base", "", [])]
    && pkgs["sub"] == [Module("/sub/t.k", "sub", "", [])]
  }

  method NestedRun() returns (r: Result<Packages, string>, missing: seq<string>, diags: seq<string>)
    ensures r.Ok? && NestedResult(r.value) && missing == [] && diags == []
  {
    hide Loaded, Nested, NestedResult;
    ghost var requests: map<string, Request>, log: seq<(string, string)>;
    r, missing, diags, requests, log := Loader.LoadProgram(Nested(), NestedProgram());
    NestedReadable();
    ghost var st := State(r.value, missing, diags, requests, log);
    NestedReasons(st);
    NestedLoads(st);
  }

  lemma NestedReadable()
    ensures MainReadable(Nested(), NestedProgram()) && Loadable(Nested())
  {
  }

  lemma NestedLoads(st: State)
    requires Loaded(Nested(), NestedProgram(), st)
    ensures NestedResult(st.pkgs)
  {
    hide Loaded, Nested, NestedFound, SettledModule, SettledPackage, Unambiguous, Wanted;
    var w, prog := Nested(), NestedProgram();
    NestedUnambiguous();
    PluginsAreOn();
    LoadedIsWanted(w, prog, st);
    forall info ensures Wanted(w, prog, info) <==> info in NestedFound().Values { NestedWanted(info); }
    NestedKeys(st.pkgs);
    NestedMain(st);
    NestedValues();
    NestedSources();
    NestedSub(st.pkgs["app.sub"], st.Now());
    NestedEmpty("app.base", "/app/base/b.k", st.pkgs["app.base"], st.Now());
    NestedEmpty("sub", "/sub/t.k", st.pkgs["sub"], st.Now());
  }

  lemma NestedValues()
    ensures PkgInfo(MAIN_PKG, "/", "app.sub", ["/app/sub/s.k"]) in NestedFound().Values
    ensures PkgInfo(MAIN_PKG, "/", "app.base", ["/app/base/b.k"]) in NestedFound().Values
    ensures PkgInfo(MAIN_PKG, "/", "sub", ["/sub/t.k"]) in NestedFound().Values
  {
    assert InMain("app.sub") in NestedFound() && InMain("app.base") in NestedFound() && InMain("sub") in NestedFound();
  }

  lemma NestedSources()
    ensures var src := Nested().sources;
      && "/app/sub/s.k" in src && src["/app/sub/s.k"] == [ImportAs("..base", "base", "")]
      && "/app/base/b.k" in src && src["/app/base/b.k"] == [] && "/sub/t.k" in src && src["/sub/t.k"] == []
    ensures Nested().external == map[]
  {
  }

  lemma NestedKeys(pkgs: Packages)
    requires forall k ::
      k in pkgs <==> k == MAIN_PKG || exists info :: info in NestedFound().Values && info.pkgPath == k
    ensures pkgs.Keys == {"__main__", "app.sub", "app.base", "sub"}
  {
    NestedValues();
    forall info | info in NestedFound().Values ensures info.pkgPath in {"app.sub", "app.base", "sub"} {
    }
  }

  lemma NestedSub(mods: seq<Module>, l: Ledger)
    requires SettledPackage(Nested(), PkgInfo(MAIN_PKG, "/", "app.sub", ["/app/sub/s.k"]), mods, l)
    ensures mods == [Module("/app/sub/s.k", "app.sub", "", [ImportAs("app.base", "base", "__main__")])]
  {
    hide Resolves, Find, Nested, SettledModule;
    NestedPaths();
    NestedSources();
    var w, m := Nested(), mods[0];
    var src := w.sources["/app/sub/s.k"];
    assert SettledModule(w, MAIN_PKG, "/", src, m, l);
    ImportBecomes(w, MAIN_PKG, "/", src, m, l, 0, "app.base");
    SameSize(w, MAIN_PKG, "/", src, m, l);
    hide SettledPackage;
    assert m.body == [m.body[0]] && mods == [m];
  }

  /** A package whose only file has no statements. */
  lemma NestedEmpty(path: string, f: string, mods: seq<Module>, l: Ledger)
    requires SettledPackage(Nested(), PkgInfo(MAIN_PKG, "/", path, [f]), mods, l)
    requires f in Nested().sources && Nested().sources[f] == []
    ensures mods == [Module(f, path, "", [])]
  {
    hide Nested;
    assert SettledModule(Nested(), MAIN_PKG, "/", [], mods[0], l) && mods == [mods[0]];
  }

  lemma NestedMain(st: State)
    requires Loaded(Nested(), NestedProgram(), st)
    ensures MAIN_PKG in st.pkgs
    ensures st.pkgs[MAIN_PKG] == [Module("/app/main.k", "__main__", "__main__",
      [ImportAs("app.sub", "sub", "__main__"), ImportAs("sub", "t", "__main__"),
       ImportAs("kcl_plugin.hello", "hello", "__main__"), ImportAs("math", "math", "__main__"), Other("x = 1")])]
  {
    hide Resolves, Loaded, SettledModule;
    var w, prog := Nested(), NestedProgram();
    NestedPaths();
    MainImportBecomes(w, prog, st, 0, 0, "app.sub");
    MainImportBecomes(w, prog, st, 0, 1, "sub");
    MainImportBecomes(w, prog, st, 0, 2, "kcl_plugin.hello");
    MainImportBecomes(w, prog, st, 0, 3, "math");
    PluginsAreOn();
    MainIsSettled(w, prog, st);
    var m := st.pkgs[MAIN_PKG][0];
    assert SettledModule(w, MAIN_PKG, prog.root, MainBody(w, prog, 0), m, st.Now());
    NestedOther(m, st.Now());
    assert m.body == [m.body[0], m.body[1], m.body[2], m.body[3], m.body[4]];
    assert st.pkgs[MAIN_PKG] == [m];
  }

  lemma NestedOther(m: Module, l: Ledger)
    requires SettledModule(Nested(), MAIN_PKG, "/", Nested().sources["/app/main.k"], m, l)
    ensures |m.body| == 5 && m.body[4] == Other("x = 1")
  {
    assert SettledStmt(Nested(), MAIN_PKG, "/", m.filename, Other("x = 1"), m.body[4], l);
  }
}
