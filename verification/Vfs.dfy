/** Import path fixing, kclvm/config/src/vfs.rs.

    The package path of the importing file is a stack of directory segments. An import
    with n leading dots pops n - 1 of them and appends the rest of the import. */
module Vfs {
  import opened Strings

  const DOT := '.'

  /** The package path of a directory, given the directory's path relative to the root. */
  function DirPkgPath(relDir: string): string
  {
    TrimEnd(seq(|relDir|, i requires 0 <= i < |relDir| =>
      if relDir[i] == '/' || relDir[i] == '\\' then DOT else relDir[i]), DOT)
  }

  function Segments(pkgPath: string): (segs: seq<string>)
    ensures forall i | 0 <= i < |segs| :: DOT !in segs[i]
  {
    if pkgPath == "" then [] else Split(pkgPath, DOT)
  }

  /** The segment-stack meaning of an import path. */
  function StackResolve(segs: seq<string>, importPath: string): string
  {
    var dots := LeadingCount(importPath, DOT);
    if dots == 0 then importPath
    else if dots - 1 > |segs| then ""
    else Join(segs[..|segs| - (dots - 1)] + [importPath[dots..]], DOT)
  }

  /** The one place where the code leaves the stack meaning: at the root, a single-dot
      import also loses its trailing dots. */
  predicate TrimsAtRoot(pkgPath: string, importPath: string)
  {
    pkgPath == "" && LeadingCount(importPath, DOT) == 1
    && importPath != "." && importPath[|importPath| - 1] == DOT
  }

  function Fixed(pkgPath: string, importPath: string): string
  {
    if TrimsAtRoot(pkgPath, importPath) then TrimEnd(TrimStart(importPath, DOT), DOT)
    else StackResolve(Segments(pkgPath), importPath)
  }

  method FixImportPath(relDir: string, importPath: string) returns (fixed: string)
    ensures fixed == Fixed(DirPkgPath(relDir), importPath)
  {
    if importPath == "" || importPath[0] != DOT {
      return importPath;
    }
    var pkgPath := DirPkgPath(relDir);

    var leadingDotCount := |importPath|;
    for i := 0 to |importPath|
      invariant leadingDotCount == |importPath|
      invariant forall j | 0 <= j < i :: importPath[j] == DOT
    {
      if importPath[i] != DOT {
        leadingDotCount := i;
        break;
      }
    }
    assert leadingDotCount == LeadingCount(importPath, DOT);

    if pkgPath == "" {
      if leadingDotCount <= 1 {
        TrimmedRoot(importPath);
        return TrimEnd(TrimStart(importPath, DOT), DOT);
      } else {
        return "";
      }
    }

    var ss := Split(pkgPath, DOT);
    if leadingDotCount == 1 {
      SingleDot(pkgPath, importPath);
      return pkgPath + importPath;
    }

    if leadingDotCount - 1 < |ss| {
      var prefix := Join(ss[..|ss| - leadingDotCount + 1], DOT);
      var suffix := importPath[leadingDotCount..];
      JoinAppend(ss[..|ss| - leadingDotCount + 1], [suffix], DOT);
      return prefix + [DOT] + suffix;
    }
    if leadingDotCount - 1 == |ss| {
      return importPath[leadingDotCount..];
    }
    return "";
  }

  lemma TrimmedRoot(importPath: string)
    requires LeadingCount(importPath, DOT) == 1
    ensures Fixed("", importPath) == TrimEnd(TrimStart(importPath, DOT), DOT)
  {
    var rest := importPath[1..];
    assert StackResolve([], importPath) == Join([] + [rest], DOT) == rest;
  }

  lemma SingleDot(pkgPath: string, importPath: string)
    requires pkgPath != "" && LeadingCount(importPath, DOT) == 1
    ensures StackResolve(Segments(pkgPath), importPath) == pkgPath + importPath
  {
    var ss := Split(pkgPath, DOT);
    JoinOfSplit(pkgPath, DOT);
    JoinAppend(ss, [importPath[1..]], DOT);
    hide Split, LeadingCount;
    assert ss[..|ss|] == ss;
    assert importPath == [DOT] + importPath[1..];
  }

  /** The code computes the stack meaning exactly when it does not trim at the root. */
  lemma FixedIsStackResolve(pkgPath: string, importPath: string)
    ensures Fixed(pkgPath, importPath) == StackResolve(Segments(pkgPath), importPath)
      <==> !TrimsAtRoot(pkgPath, importPath)
  {
    if TrimsAtRoot(pkgPath, importPath) {
      var rest := importPath[1..];
      assert StackResolve([], importPath) == Join([] + [rest], DOT) == rest;
      assert rest[|rest| - 1] == DOT;
    }
  }

  /** Text of the kept segments, each followed by its dot. */
  function Prefix(segs: seq<string>): string
  {
    if segs == [] then "" else segs[0] + [DOT] + Prefix(segs[1..])
  }

  lemma {:induction false} JoinIsPrefix(segs: seq<string>, rest: string)
    ensures Join(segs + [rest], DOT) == Prefix(segs) + rest
    decreases |segs|
  {
    if segs == [] {
    } else {
      JoinIsPrefix(segs[1..], rest);
      assert (segs + [rest])[1..] == segs[1..] + [rest];
    }
  }

  /** A path's leading dots are its leading empty segments. */
  lemma {:induction false} LeadingSegments(pkgPath: string)
    requires pkgPath != "" && pkgPath[|pkgPath| - 1] != DOT
    ensures var segs, d := Split(pkgPath, DOT), LeadingCount(pkgPath, DOT);
      d < |segs| && segs[d] != "" && forall i | 0 <= i < d :: segs[i] == ""
    decreases |pkgPath|
  {
    if pkgPath[0] == DOT {
      LeadingSegments(pkgPath[1..]);
      assert Split(pkgPath, DOT) == [""] + Split(pkgPath[1..], DOT);
    }
  }

  lemma {:induction false} PrefixLength(segs: seq<string>)
    ensures |Prefix(segs)| >= |segs|
    ensures |Prefix(segs)| == |segs| <==> forall i | 0 <= i < |segs| :: segs[i] == ""
    decreases |segs|
  {
    if segs != [] {
      PrefixLength(segs[1..]);
      assert forall i | 0 < i < |segs| :: segs[i] == segs[1..][i - 1];
    }
  }

  /** The leading dots of `Prefix(segs) + rest`, when `rest` has none of its own. */
  lemma {:induction false} LeadingOfPrefix(segs: seq<string>, rest: string, empties: nat)
    requires rest == "" || rest[0] != DOT
    requires empties <= |segs| && forall i | 0 <= i < empties :: segs[i] == ""
    requires empties < |segs| ==> segs[empties] != "" && segs[empties][0] != DOT
    ensures LeadingCount(Prefix(segs) + rest, DOT) == empties
    decreases |segs|
  {
    var s := Prefix(segs) + rest;
    if segs == [] {
      assert s == rest;
    } else if empties > 0 {
      LeadingOfPrefix(segs[1..], rest, empties - 1);
      assert s[1..] == Prefix(segs[1..]) + rest;
    }
  }

  lemma LeadingOfKept(pkgPath: string, m: nat, rest: string)
    requires pkgPath != "" && pkgPath[|pkgPath| - 1] != DOT && m <= |Segments(pkgPath)|
    requires rest == "" || rest[0] != DOT
    ensures var d := LeadingCount(pkgPath, DOT);
      LeadingCount(Prefix(Segments(pkgPath)[..m]) + rest, DOT) == if m < d then m else d
  {
    var segs, d := Segments(pkgPath), LeadingCount(pkgPath, DOT);
    LeadingSegments(pkgPath);
    hide LeadingCount, Split, Prefix;
    assert segs[d][0] in segs[d];
    LeadingOfPrefix(segs[..m], rest, if m < d then m else d);
  }

  /** What makes a second application harmless, in terms of the dots of the two paths and the
      number of directory segments. It always holds for a file at or below the root, whose package
      path starts with no dot. */
  predicate SecondFixIsHarmless(pkgPath: string, importPath: string)
  {
    var n, d, s := LeadingCount(importPath, DOT), LeadingCount(pkgPath, DOT), |Segments(pkgPath)|;
    n == 0 || d == 0 || n - 1 >= s || s + 1 == 2 * (if s - (n - 1) < d then s - (n - 1) else d)
  }

  lemma FixingTwice(relDir: string, importPath: string)
    ensures var pkgPath := DirPkgPath(relDir);
      var once := Fixed(pkgPath, importPath);
      Fixed(pkgPath, once) == once <==> SecondFixIsHarmless(pkgPath, importPath)
  {
    var pkgPath := DirPkgPath(relDir);
    var once := Fixed(pkgPath, importPath);
    var n, d, segs := LeadingCount(importPath, DOT), LeadingCount(pkgPath, DOT), Segments(pkgPath);
    if n == 0 || n - 1 > |segs| || TrimsAtRoot(pkgPath, importPath) {
    } else if n - 1 == |segs| {
      assert segs[..0] + [importPath[n..]] == [importPath[n..]];
    } else {
      var m := |segs| - (n - 1);
      var rest := importPath[n..];
      JoinIsPrefix(segs[..m], rest);
      LeadingOfKept(pkgPath, m, rest);
      var t := if m < d then m else d;
      if d > 0 {
        KeptTwice(pkgPath, once, t, d);
      }
    }
  }

  /** In a hidden directory the second pass resolves the leading dot of its own name again. */
  lemma HiddenDirectoryIsFixedTwice()
    ensures DirPkgPath(".k") == ".k" && !SecondFixIsHarmless(".k", ".sub")
    ensures Fixed(".k", ".sub") == ".k.sub" && Fixed(".k", ".k.sub") == ".k.k.sub"
  {
    hide Fixed, Segments, DirPkgPath, SecondFixIsHarmless, LeadingCount;
    HiddenFixed("sub");
    HiddenFixed("k.sub");
    HiddenName();
    HarmfulThere();
    assert [DOT] + "sub" == ".sub" && [DOT] + "k.sub" == ".k.sub";
  }

  lemma HiddenName()
    ensures DirPkgPath(".k") == ".k"
  {
  }

  lemma HarmfulThere()
    ensures !SecondFixIsHarmless(".k", ".sub")
  {
    HiddenSegments();
    hide Segments;
    assert LeadingCount(".sub"[1..], DOT) == 0;
  }

  lemma HiddenSegments()
    ensures LeadingCount(".k", DOT) == 1 && Segments(".k") == ["", "k"]
  {
    assert ".k"[1..] == "k" && IndexOf("k", DOT) == 1;
  }

  /** An import of one leading dot in the directory `.k`. */
  lemma HiddenFixed(rest: string)
    requires rest != "" && rest[0] != DOT
    ensures Fixed(".k", [DOT] + rest) == ".k." + rest
  {
    HiddenSegments();
    hide Split, Join;
    var path := [DOT] + rest;
    assert path[1..] == rest && LeadingCount(rest, DOT) == 0;
    assert ["", "k"][..2] == ["", "k"];
    HiddenJoin(rest);
  }

  lemma HiddenJoin(rest: string)
    ensures Join(["", "k"] + [rest], DOT) == ".k." + rest
  {
    assert Join(["k", rest], DOT) == "k" + [DOT] + Join([rest], DOT);
    assert (["", "k"] + [rest])[1..] == ["k", rest] && ["k", rest][1..] == [rest];
  }

  lemma FixedBelow(pkgPath: string, path: string, dots: nat)
    requires pkgPath != "" && dots == LeadingCount(path, DOT) && 0 < dots <= |Segments(pkgPath)|
    ensures var segs := Segments(pkgPath);
      Fixed(pkgPath, path) == Prefix(segs[..|segs| - (dots - 1)]) + path[dots..]
  {
    hide Prefix, Join, Segments, LeadingCount;
    var segs := Segments(pkgPath);
    JoinIsPrefix(segs[..|segs| - (dots - 1)], path[dots..]);
  }

  /** The second application of a path that came out with `t` leading dots. */
  lemma KeptTwice(pkgPath: string, once: string, t: nat, d: nat)
    requires pkgPath != "" && pkgPath[|pkgPath| - 1] != DOT
    requires d == LeadingCount(pkgPath, DOT) && 0 < t <= d && t == LeadingCount(once, DOT)
    ensures Fixed(pkgPath, once) == once <==> |Segments(pkgPath)| + 1 == 2 * t
  {
    LeadingSegments(pkgPath);
    var segs := Segments(pkgPath);
    hide Prefix, Fixed, Segments, Split, LeadingCount;
    FixedBelow(pkgPath, once, t);
    var j := |segs| - (t - 1);
    KeptLength(segs, j, t, d);
    KeptText(Prefix(segs[..j]), once, t);
    if j == t {
      AllDots(segs[..j]);
      assert once[..t] == seq(t, i => DOT);
    }
  }

  lemma KeptText(prefix: string, once: string, t: nat)
    requires t <= |once|
    ensures prefix + once[t..] == once <==> prefix == once[..t]
  {
    assert once == once[..t] + once[t..];
    if prefix + once[t..] == once { assert |prefix| == t && prefix == once[..t]; }
  }

  /** Only as many segments as there are leading dots can be as short as these dots. */
  lemma KeptLength(segs: seq<string>, j: nat, t: nat, d: nat)
    requires j <= |segs| && t <= d < |segs|
    requires segs[d] != "" && forall i | 0 <= i < d :: segs[i] == ""
    ensures |Prefix(segs[..j])| == t <==> j == t
  {
    PrefixLength(segs[..j]);
    hide Prefix;
    if j > d { assert segs[..j][d] != ""; }
  }

  lemma {:induction false} AllDots(segs: seq<string>)
    requires forall i | 0 <= i < |segs| :: segs[i] == ""
    ensures Prefix(segs) == seq(|segs|, i => DOT)
    decreases |segs|
  {
    if segs != [] { AllDots(segs[1..]); }
  }
  // ----- paths written out -----

  /** A directory name. */
  predicate PlainName(name: string)
  {
    name != "" && DOT !in name && '/' !in name && '\\' !in name
  }

  predicate PlainNames(names: seq<string>)
  {
    forall i | 0 <= i < |names| :: PlainName(names[i])
  }

  /** The package path of nested directories is their names with dots between, whichever separator the
      platform has. */
  lemma {:induction false} DirectoryPath(names: seq<string>, sep: char)
    requires PlainNames(names) && (sep == '/' || sep == '\\')
    ensures DirPkgPath(Join(names, sep)) == Join(names, DOT)
    ensures Segments(Join(names, DOT)) == names
  {
    DottedJoin(names, sep);
    if names != [] {
      EndsInName(names);
      var joined := Join(names, sep);
      assert Dotted(joined) == seq(|joined|, i requires 0 <= i < |joined| =>
        if joined[i] == '/' || joined[i] == '\\' then DOT else joined[i]);
      SplitOfJoin(names, DOT);
    }
  }

  function Dotted(s: string): (t: string)
    ensures |t| == |s| && forall i | 0 <= i < |s| :: t[i] == if s[i] == '/' || s[i] == '\\' then DOT else s[i]
  {
    seq(|s|, i requires 0 <= i < |s| => if s[i] == '/' || s[i] == '\\' then DOT else s[i])
  }

  lemma {:induction false} DottedJoin(names: seq<string>, sep: char)
    requires PlainNames(names) && (sep == '/' || sep == '\\')
    ensures Dotted(Join(names, sep)) == Join(names, DOT)
    decreases |names|
  {
    if names != [] {
      var first := names[0];
      assert PlainName(first) && forall i | 0 <= i < |first| :: first[i] in first;
      assert Dotted(first) == first;
      if |names| > 1 {
        DottedJoin(names[1..], sep);
        assert Dotted(first + [sep] + Join(names[1..], sep)) == Dotted(first) + [DOT] + Dotted(Join(names[1..], sep));
      }
    }
  }

  lemma {:induction false} EndsInName(names: seq<string>)
    requires PlainNames(names) && names != []
    ensures var s := Join(names, DOT); s != "" && s[0] != DOT && s[|s| - 1] != DOT
    decreases |names|
  {
    var first := names[0];
    assert PlainName(first) && first[0] in first && first[|first| - 1] in first;
    if |names| > 1 { EndsInName(names[1..]); }
  }

  function Dots(n: nat): string { seq(n, _ => DOT) }

  lemma {:induction false} DotsLead(n: nat, name: string)
    requires name == "" || name[0] != DOT
    ensures LeadingCount(Dots(n) + name, DOT) == n
  {
    if n > 0 {
      DotsLead(n - 1, name);
      assert (Dots(n) + name)[1..] == Dots(n - 1) + name;
    } else {
      assert Dots(0) + name == name;
    }
  }

  /** What an import means in nested directories, with any number of leading dots: the first dot is the directory
      of the file, each further one leaves a directory. The second pass of the loader changes nothing. */
  lemma ImportInDirectory(names: seq<string>, n: nat, name: string)
    requires PlainNames(names) && name != "" && name[0] != DOT && name[|name| - 1] != DOT
    ensures var dir := Join(names, DOT);
      var found :=
        if n == 0 then name
        else if n - 1 > |names| then ""
        else Join(names[..|names| - (n - 1)] + [name], DOT);
      Fixed(dir, Dots(n) + name) == found && Fixed(dir, found) == found
  {
    var dir, path := Join(names, DOT), Dots(n) + name;
    DotsLead(n, name);
    DirectoryPath(names, '/');
    if names != [] { EndsInName(names); }
    assert path[n..] == name && path[|path| - 1] != DOT;
    assert names == [] ==> dir == "";
    hide Join, Segments, DirPkgPath, LeadingCount;
    FixedIsStackResolve(dir, path);
    assert Fixed(dir, path) == StackResolve(names, path);
    hide Fixed, StackResolve;
    FixingTwice(Join(names, '/'), path);
    assert SecondFixIsHarmless(dir, path);
  }
}
