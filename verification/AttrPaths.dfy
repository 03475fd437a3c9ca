/** Listing the attribute paths of a configuration, kclvm/ast/src/path.rs:60-100. */
module AttrPaths {
  import opened Wrappers
  import opened Strings
  import opened ConfigAst
  import opened OverrideLaws

  /** The Unicode White_Space property, which `str::trim` goes by. */
  predicate IsWhitespace(c: char)
  {
    var n := c as int;
    9 <= n <= 13 || n == 0x20 || n == 0x85 || n == 0xA0 || n == 0x1680 || 0x2000 <= n <= 0x200A
    || n == 0x2028 || n == 0x2029 || n == 0x202F || n == 0x205F || n == 0x3000
  }

  predicate Blank(s: string)
  {
    forall i | 0 <= i < |s| :: IsWhitespace(s[i])
  }

  /** The paths that occur in a configuration, as segment lists; an entry with a blank name hides
      everything below it. */
  function Occurring(items: seq<Entry>): seq<seq<string>>
    decreases items
  {
    if items == [] then [] else OccurringEntry(items[0]) + Occurring(items[1..])
  }

  function OccurringEntry(entry: Entry): seq<seq<string>>
    decreases entry
  {
    var segs := KeySegments(entry.key);
    if Blank(KeyPath(entry.key)) then []
    else
      [segs] + Below(segs, match ConfigOf(entry.value) case Some(sub) => Occurring(sub) case None => [])
  }

  function Below(segs: seq<string>, paths: seq<seq<string>>): seq<seq<string>>
  {
    seq(|paths|, i requires 0 <= i < |paths| => segs + paths[i])
  }

  function Dotted(paths: seq<seq<string>>): (r: seq<string>)
  {
    seq(|paths|, i requires 0 <= i < |paths| => Join(paths[i], '.'))
  }

  lemma DottedAppend(a: seq<seq<string>>, b: seq<seq<string>>)
    ensures Dotted(a + b) == Dotted(a) + Dotted(b) && Dotted([]) == []
  {
  }

  lemma {:induction false} OccurringNonEmpty(items: seq<Entry>)
    ensures forall p | p in Occurring(items) :: p != []
    decreases items
  {
    if items != [] { OccurringNonEmpty(items[1..]); }
  }

  lemma {:induction false} OccurringAppend(a: seq<Entry>, b: seq<Entry>)
    ensures Occurring(a + b) == Occurring(a) + Occurring(b)
    decreases |a|
  {
    hide OccurringEntry;
    if a == [] {
      assert a + b == b;
    } else {
      OccurringAppend(a[1..], b);
      assert (a + b)[0] == a[0] && (a + b)[1..] == a[1..] + b;
    }
  }

  lemma OccurringAppendOne(items: seq<Entry>, entry: Entry)
    ensures Occurring(items + [entry]) == Occurring(items) + OccurringEntry(entry)
  {
    hide OccurringEntry;
    OccurringAppend(items, [entry]);
    assert Occurring([entry]) == OccurringEntry(entry) + [];
  }

  method GetAttrPathsFromConfigExpr(items: seq<Entry>) returns (paths: seq<string>)
    ensures paths == Dotted(Occurring(items))
    decreases items
  {
    hide OccurringEntry, Dotted;
    paths := [];
    DottedAppend([], []);
    for i := 0 to |items|
      invariant paths == Dotted(Occurring(items[..i]))
    {
      var entryPaths := GetEntryPaths(items[i]);
      paths := paths + entryPaths;
      assert items[..i + 1] == items[..i] + [items[i]];
      OccurringAppendOne(items[..i], items[i]);
      DottedAppend(Occurring(items[..i]), OccurringEntry(items[i]));
    }
    assert items[..|items|] == items;
  }

  method GetEntryPaths(entry: Entry) returns (paths: seq<string>)
    ensures paths == Dotted(OccurringEntry(entry))
    decreases entry
  {
    hide Occurring, Join;
    paths := [];
    var path := KeyPath(entry.key);
    if path == "" || Blank(path) { return; }
    paths := paths + [path];
    if ConfigOf(entry.value).Some? {
      var valuePaths := GetAttrPathsFromConfigExpr(ConfigOf(entry.value).value);
      for i := 0 to |valuePaths|
        invariant paths == [path] + Prefixed(path, valuePaths[..i])
      {
        paths := paths + [path + "." + valuePaths[i]];
      }
      assert valuePaths[..|valuePaths|] == valuePaths;
      hide Prefixed;
      OccurringNonEmpty(ConfigOf(entry.value).value);
      PrefixedIsBelow(KeySegments(entry.key), Occurring(ConfigOf(entry.value).value));
    }
    KeyPathIsJoin(entry.key);
  }

  function Prefixed(path: string, valuePaths: seq<string>): seq<string>
  {
    seq(|valuePaths|, i requires 0 <= i < |valuePaths| => path + "." + valuePaths[i])
  }

  lemma KeyPathIsJoin(key: Option<Expr>)
    ensures KeyPath(key) == Join(KeySegments(key), '.')
  {
  }

  lemma PrefixedIsBelow(segs: seq<string>, paths: seq<seq<string>>)
    requires segs != [] && forall p | p in paths :: p != []
    ensures Prefixed(Join(segs, '.'), Dotted(paths)) == Dotted(Below(segs, paths))
  {
    forall i | 0 <= i < |paths|
      ensures Join(segs, '.') + "." + Join(paths[i], '.') == Join(segs + paths[i], '.')
    {
      assert paths[i] in paths;
      JoinAppend(segs, paths[i], '.');
    }
  }

  // ----- the listing and the values -----

  predicate Named(path: seq<string>)
  {
    path != [] && forall i | 0 <= i < |path| :: !Blank(path[i])
  }

  /** A path of non-blank segments is listed exactly when a value is found at it. */
  lemma {:induction false} OccursIffFound(items: seq<Entry>, q: seq<string>)
    requires Named(q)
    ensures q in Occurring(items) <==> ValuesAt(items, q, false) != []
    decreases items
  {
    if items != [] {
      EntryOccursIffFound(items[0], q);
      OccursIffFound(items[1..], q);
    }
  }

  lemma {:induction false} EntryOccursIffFound(entry: Entry, q: seq<string>)
    requires Named(q)
    ensures q in OccurringEntry(entry) <==> EntryValues(entry, q, false) != []
    decreases entry
  {
    var segs := KeySegments(entry.key);
    if Blank(KeyPath(entry.key)) {
      BlankKeyIsOneSegment(entry.key);
      assert Blank(segs[0]);
    } else {
      var sub := match ConfigOf(entry.value) case Some(sub) => Occurring(sub) case None => [];
      if segs < q {
        var rest := q[|segs|..];
        if ConfigOf(entry.value).Some? {
          OccursIffFound(ConfigOf(entry.value).value, rest);
        }
        assert q == segs + rest;
        assert rest in sub ==> q in Below(segs, sub) by {
          if rest in sub {
            var i :| 0 <= i < |sub| && sub[i] == rest;
            assert Below(segs, sub)[i] == q;
          }
        }
        assert q in Below(segs, sub) ==> rest in sub;
      } else if q == segs {
        assert q[|segs|..] == [] && OccurringEntry(entry)[0] == q;
      } else {
        assert forall p | p in Below(segs, sub) :: segs <= p;
      }
    }
  }

  lemma BlankKeyIsOneSegment(key: Option<Expr>)
    ensures Blank(KeyPath(key)) ==> KeySegments(key) == [KeyPath(key)]
  {
    match key {
      case Some(IdentifierExpr(id)) =>
        if id.rest != [] {
          var name := Join(id.Names(), '.');
          assert name[|id.first|] == '.' && !IsWhitespace('.');
        }
      case _ =>
    }
  }

  /** After an update its dotted path is in the listing. */
  lemma UpdatedPathIsListed(items: seq<Entry>, parts: Path, value: Expr)
    requires Normal(items) && Named(parts)
    ensures Join(parts, '.') in Dotted(Occurring(Put(items, parts, value)))
  {
    PutReaches(items, parts, value);
    OccursIffFound(Put(items, parts, value), parts);
    var paths := Occurring(Put(items, parts, value));
    var i :| 0 <= i < |paths| && paths[i] == parts;
    assert Dotted(paths)[i] == Join(parts, '.');
  }

  lemma {:induction false} DeleteOccurring(items: seq<Entry>, parts: Path)
    ensures forall p | p in Occurring(Delete(items, parts)) :: p in Occurring(items)
    decreases |parts|, |items| + 1
  {
    if items != [] {
      DeleteEntryOccurring(items[0], parts);
      DeleteOccurring(items[1..], parts);
      OccurringAppend(DeleteEntry(items[0], parts), Delete(items[1..], parts));
    }
  }

  lemma {:induction false} DeleteEntryOccurring(entry: Entry, parts: Path)
    ensures forall p | p in Occurring(DeleteEntry(entry, parts)) :: p in OccurringEntry(entry)
    decreases |parts|, 0
  {
    if DeleteEntry(entry, parts) != [] {
      var after := DeleteEntry(entry, parts)[0];
      assert Occurring([after]) == OccurringEntry(after) + [];
      if Receives(entry, parts) {
        var sub := ConfigOf(entry.value).value;
        var sub' := Delete(sub, parts[1..]);
        DeleteOccurring(sub, parts[1..]);
        assert DeleteBelow(entry.value, parts[1..]) == WithConfig(entry.value, sub');
        var segs := KeySegments(entry.key);
        forall p | p in Below(segs, Occurring(sub')) ensures p in Below(segs, Occurring(sub)) {
          var i :| 0 <= i < |Occurring(sub')| && p == segs + Occurring(sub')[i];
          assert Occurring(sub')[i] in Occurring(sub');
          var j :| 0 <= j < |Occurring(sub)| && Occurring(sub)[j] == Occurring(sub')[i];
          assert Below(segs, Occurring(sub))[j] == p;
        }
      }
    }
  }

  lemma {:induction false} OccurringNamed(items: seq<Entry>)
    requires Normal(items)
    ensures forall p | p in Occurring(items) :: Named(p)
    decreases items
  {
    if items != [] {
      OccurringEntryNamed(items[0]);
      OccurringNamed(items[1..]);
    }
  }

  lemma {:induction false} OccurringEntryNamed(entry: Entry)
    requires NormalEntry(entry)
    ensures forall p | p in OccurringEntry(entry) :: Named(p)
    decreases entry
  {
    assert KeySegments(entry.key) == [KeyPath(entry.key)];
    if ConfigOf(entry.value).Some? {
      var paths := Occurring(ConfigOf(entry.value).value);
      OccurringNamed(ConfigOf(entry.value).value);
      assert forall i | 0 <= i < |paths| :: Named(paths[i]);
    }
  }

  /** A path that another one extends is spelled shorter. */
  lemma PrefixIsShorter(a: seq<string>, b: seq<string>)
    requires a != [] && a < b
    ensures |Join(a, '.')| < |Join(b, '.')|
  {
    JoinAppend(a, b[|a|..], '.');
    assert a + b[|a|..] == b;
  }

  /** Another path that is spelled the same: some key holds a dot. */
  ghost predicate Alias(items: seq<Entry>, parts: Path)
  {
    exists p | p in Occurring(items) :: p != parts && Join(p, '.') == Join(parts, '.')
  }

  lemma AliasIsUnrelated(p: seq<string>, parts: Path)
    requires p != [] && p != parts && Join(p, '.') == Join(parts, '.')
    ensures Unrelated(parts, p)
  {
    if p < parts { PrefixIsShorter(p, parts); }
    if parts < p { PrefixIsShorter(parts, p); }
  }

  /** After a deletion its dotted path is in the listing exactly when another path of the configuration
      is spelled the same. */
  lemma DeletedPathIsListedOnlyAsAlias(items: seq<Entry>, parts: Path)
    requires Normal(items) && Named(parts)
    ensures Join(parts, '.') in Dotted(Occurring(Delete(items, parts))) <==> Alias(items, parts)
  {
    var after := Delete(items, parts);
    var paths := Occurring(after);
    DeleteOccurring(items, parts);
    OccurringNamed(items);
    if i :| 0 <= i < |paths| && Join(paths[i], '.') == Join(parts, '.') {
      DeleteAllLaw(items, parts, parts, false);
      OccursIffFound(after, parts);
      assert paths[i] in paths && paths[i] in Occurring(items);
    }
    if p :| p in Occurring(items) && p != parts && Join(p, '.') == Join(parts, '.') {
      AliasIsUnrelated(p, parts);
      DeleteAllLaw(items, parts, p, false);
      OccursIffFound(items, p);
      OccursIffFound(after, p);
      var i :| 0 <= i < |paths| && paths[i] == p;
      assert Dotted(paths)[i] == Join(parts, '.');
    }
  }

  lemma {:induction false} KeyOccurs(items: seq<Entry>, i: nat)
    requires i < |items| && !Blank(KeyPath(items[i].key))
    ensures KeySegments(items[i].key) in Occurring(items)
    decreases i
  {
    if i == 0 {
      assert OccurringEntry(items[0])[0] == KeySegments(items[0].key);
    } else {
      hide OccurringEntry;
      KeyOccurs(items[1..], i - 1);
    }
  }

  /** A string key that spells a path of several segments keeps it in the listing when it is deleted. */
  lemma DottedStringKeyStaysListed(items: seq<Entry>, parts: Path, i: nat)
    requires Normal(items) && Named(parts) && |parts| > 1
    requires i < |items| && items[i].key == Some(StringLit(Join(parts, '.')))
    ensures Join(parts, '.') in Dotted(Occurring(Delete(items, parts)))
  {
    hide Occurring, Delete, Dotted;
    var text := Join(parts, '.');
    assert text[|parts[0]|] == '.' && !Blank(text);
    KeyOccurs(items, i);
    assert Join([text], '.') == text && [text] != parts;
    assert Alias(items, parts);
    DeletedPathIsListedOnlyAsAlias(items, parts);
  }
  /** The order of the listing: an entry before what it holds, and both before the next entry. */
  lemma ListingInOrder(value: Expr)
    requires ConfigOf(value).None?
    ensures var leaf := (key: string) => Entry(Some(StringLit(key)), value, Union, -1);
      var inner := Entry(Some(StringLit("c")), Config([leaf("d")]), Union, -1);
      var outer := Entry(Some(StringLit("a")), Config([leaf("b"), inner]), Union, -1);
      Dotted(Occurring([outer, leaf("e")])) == ["a", "a.b", "a.c", "a.c.d", "e"]
  {
    var leaf := (key: string) => Entry(Some(StringLit(key)), value, Union, -1);
    var inner := Entry(Some(StringLit("c")), Config([leaf("d")]), Union, -1);
    var outer := Entry(Some(StringLit("a")), Config([leaf("b"), inner]), Union, -1);
    LettersAreNotBlank();
    hide Blank, Below;
    LeafOccurs("b", value);
    LeafOccurs("d", value);
    LeafOccurs("e", value);
    BlockOccurs("c", [leaf("d")], [["d"]]);
    OccurringAppendOne([leaf("b")], inner);
    assert [leaf("b")] + [inner] == [leaf("b"), inner];
    BelowLetters();
    BlockOccurs("a", [leaf("b"), inner], [["b"], ["c"], ["c", "d"]]);
    OccurringAppendOne([outer], leaf("e"));
    assert [outer] + [leaf("e")] == [outer, leaf("e")];
    assert Occurring([outer, leaf("e")]) == [["a"], ["a", "b"], ["a", "c"], ["a", "c", "d"], ["e"]];
    DottedLetters();
  }

  lemma DottedLetters()
    ensures Dotted([["a"], ["a", "b"], ["a", "c"], ["a", "c", "d"], ["e"]]) == ["a", "a.b", "a.c", "a.c.d", "e"]
  {
    assert ["a", "c", "d"][1..] == ["c", "d"] && ["c", "d"][1..] == ["d"];
    assert ["a", "b"][1..] == ["b"] && ["a", "c"][1..] == ["c"];
    assert Join(["a", "b"], '.') == "a.b" && Join(["a", "c"], '.') == "a.c" && Join(["a", "c", "d"], '.') == "a.c.d";
  }

  lemma BelowLetters()
    ensures Below(["c"], [["d"]]) == [["c", "d"]]
    ensures Below(["a"], [["b"], ["c"], ["c", "d"]]) == [["a", "b"], ["a", "c"], ["a", "c", "d"]]
  {
    assert ["a"] + ["b"] == ["a", "b"] && ["a"] + ["c"] == ["a", "c"] && ["a"] + ["c", "d"] == ["a", "c", "d"];
    assert ["c"] + ["d"] == ["c", "d"];
  }

  lemma LeafOccurs(name: string, value: Expr)
    requires ConfigOf(value).None? && !Blank(name)
    ensures var entry := Entry(Some(StringLit(name)), value, Union, -1);
      OccurringEntry(entry) == [[name]] && Occurring([entry]) == [[name]]
  {
    var entry := Entry(Some(StringLit(name)), value, Union, -1);
    assert OccurringEntry(entry) == [[name]] + Below([name], []) == [[name]];
    assert Occurring([entry]) == OccurringEntry(entry) + [];
  }

  lemma BlockOccurs(name: string, items: seq<Entry>, inside: seq<seq<string>>)
    requires !Blank(name) && Occurring(items) == inside
    ensures var entry := Entry(Some(StringLit(name)), Config(items), Union, -1);
      && OccurringEntry(entry) == [[name]] + Below([name], inside)
      && Occurring([entry]) == [[name]] + Below([name], inside)
  {
    var entry := Entry(Some(StringLit(name)), Config(items), Union, -1);
    assert Occurring([entry]) == OccurringEntry(entry) + [];
  }

  lemma LettersAreNotBlank()
    ensures !Blank("a") && !Blank("b") && !Blank("c") && !Blank("d") && !Blank("e")
  {
    assert !IsWhitespace("a"[0]) && !IsWhitespace("b"[0]) && !IsWhitespace("c"[0]);
    assert !IsWhitespace("d"[0]) && !IsWhitespace("e"[0]);
  }
  /** The 25 code points with the White_Space property. */
  lemma WhitespaceCharacters(c: char)
    ensures IsWhitespace(c) <==> c as int in {
      0x09, 0x0A, 0x0B, 0x0C, 0x0D, 0x20, 0x85, 0xA0, 0x1680, 0x2000, 0x2001, 0x2002, 0x2003, 0x2004, 0x2005, 0x2006,
      0x2007, 0x2008, 0x2009, 0x200A, 0x2028, 0x2029, 0x202F, 0x205F, 0x3000}
  {
  }
}
