/** The printed form of a type determines it: printed types can be read back, from the right, in
    only one way. */
module TypeDecoding {
  import opened Wrappers
  import opened Numbers
  import opened TypePrinter
  import Strings

  predicate Opener(c: char) { c == '[' || c == '{' || c == ':' }

  predicate Delimiter(c: char) { Opener(c) || c == ']' || c == '}' || c == '|' || c == '"' }

  predicate Plain(s: string)
  {
    forall i | 0 <= i < |s| :: !Delimiter(s[i])
  }

  predicate Reserved(name: string)
  {
    name in {"any", "bool", "int", "float", "str", "True", "False"}
  }

  predicate NumberChar(c: char) { IsDigit(c) || c == '-' || c == '.' }

  predicate ValidName(name: string)
  {
    name != "" && Plain(name) && '.' !in name
  }

  predicate ValidNames(names: seq<string>)
  {
    && names != [] && (forall i | 0 <= i < |names| :: ValidName(names[i]))
    && !NumberChar(names[0][0]) && !(|names| == 1 && Reserved(names[0]))
  }

  /** The text Rust displays a finite float with: no exponent, and no fraction that is zero. */
  predicate ValidFloat(text: string)
  {
    text != "" && (forall i | 0 <= i < |text| :: NumberChar(text[i]))
    && !(|text| >= 2 && text[|text| - 2..] == ".0")
  }

  /** The names and floats in a type are ones the parser can produce. */
  predicate Valid(t: Type)
    decreases t
  {
    match t
    case Named(names, _, _) => ValidNames(names)
    case List(inner) => ValidOption(inner)
    case Dict(key, value) => ValidOption(key) && ValidOption(value)
    case Union(elements) => forall i | 0 <= i < |elements| :: Valid(elements[i])
    case Literal(FloatLit(text)) => ValidFloat(text)
    case _ => true
  }

  predicate ValidOption(t: Option<Type>)
    decreases t
  {
    t.Some? ==> Valid(t.value)
  }

  // ----- leaves -----

  predicate Leaf(e: Type)
  {
    e.Any? || e.Basic? || (e.Named? && e.pkgpath == "" && e.ctx == Load) || (e.Literal? && !e.lit.StrLit?)
  }

  predicate NumberLeaf(e: Type) { e.Literal? && (e.lit.IntLit? || e.lit.FloatLit?) }

  lemma SuffixPlain(suffix: Option<Suffix>)
    ensures var t := SuffixText(suffix); forall i | 0 <= i < |t| :: !NumberChar(t[i]) && !Delimiter(t[i])
  {
    if suffix.Some? { SuffixShape(suffix.value); }
  }

  lemma SuffixInjective(a: Option<Suffix>, b: Option<Suffix>)
    requires SuffixText(a) == SuffixText(b)
    ensures a == b
  {
    if a.Some? && b.Some? {
      assert |SuffixText(a)| == |SuffixText(b)| && SuffixText(a)[0] == SuffixText(b)[0];
    }
  }

  lemma IntTextShape(v: int)
    ensures var s := IntText(v); s != "" && forall i | 0 <= i < |s| :: NumberChar(s[i]) && s[i] != '.'
  {
  }

  lemma IntTextInjective(a: int, b: int)
    requires IntText(a) == IntText(b)
    ensures a == b
  {
    var na, nb := if a < 0 then -a else a, if b < 0 then -b else b;
    NumeralValue(na);
    NumeralValue(nb);
    assert IntText(a)[0] == IntText(b)[0];
    assert a < 0 ==> IntText(a)[1..] == Numeral(na);
    assert b < 0 ==> IntText(b)[1..] == Numeral(nb);
  }

  /** How many number characters the string starts with. */
  function NumberLen(s: string): nat
  {
    if s == "" || !NumberChar(s[0]) then 0 else 1 + NumberLen(s[1..])
  }

  lemma {:induction false} NumberLenOf(number: string, rest: string)
    requires forall i | 0 <= i < |number| :: NumberChar(number[i])
    requires rest != "" ==> !NumberChar(rest[0])
    ensures NumberLen(number + rest) == |number|
    decreases |number|
  {
    if number == "" { assert number + rest == rest; }
    else {
      NumberLenOf(number[1..], rest);
      assert (number + rest)[1..] == number[1..] + rest;
    }
  }

  lemma IntLitInjective(v1: int, s1: Option<Suffix>, v2: int, s2: Option<Suffix>)
    requires IntText(v1) + SuffixText(s1) == IntText(v2) + SuffixText(s2)
    ensures v1 == v2 && s1 == s2
  {
    IntTextShape(v1);
    IntTextShape(v2);
    SuffixPlain(s1);
    SuffixPlain(s2);
    NumberLenOf(IntText(v1), SuffixText(s1));
    NumberLenOf(IntText(v2), SuffixText(s2));
    var text, n := IntText(v1) + SuffixText(s1), |IntText(v1)|;
    assert text[..n] == IntText(v1) && text[n..] == SuffixText(s1);
    assert text[..n] == IntText(v2) && text[n..] == SuffixText(s2);
    IntTextInjective(v1, v2);
    SuffixInjective(s1, s2);
  }

  lemma IntLitText(v: int, suffix: Option<Suffix>)
    ensures LiteralText(IntLit(v, suffix)) == IntText(v) + SuffixText(suffix)
    ensures var s := LiteralText(IntLit(v, suffix)); '.' !in s && s != "" && NumberChar(s[0]) && Plain(s)
  {
    IntTextShape(v);
    SuffixPlain(suffix);
    assert suffix.None? ==> IntText(v) + "" == IntText(v);
  }

  lemma FloatLitText(text: string)
    requires ValidFloat(text)
    ensures var s := LiteralText(FloatLit(text)); '.' in s && s != "" && NumberChar(s[0]) && Plain(s)
  {
    assert '.' !in text ==> (text + ".0")[|text|] == '.';
  }

  lemma FloatLitInjective(a: string, b: string)
    requires ValidFloat(a) && ValidFloat(b) && LiteralText(FloatLit(a)) == LiteralText(FloatLit(b))
    ensures a == b
  {
    var pa, pb := LiteralText(FloatLit(a)), LiteralText(FloatLit(b));
    assert '.' !in a ==> pa[|pa| - 2..] == ".0" && a == pa[..|pa| - 2];
    assert '.' !in b ==> pb[|pb| - 2..] == ".0" && b == pb[..|pb| - 2];
  }

  lemma {:induction false} JoinShape(names: seq<string>)
    requires names != [] && forall i | 0 <= i < |names| :: ValidName(names[i])
    ensures var s := Strings.Join(names, '.'); s != "" && names[0] != "" && s[0] == names[0][0] && Plain(s)
    ensures |names| > 1 ==> '.' in Strings.Join(names, '.')
    decreases |names|
  {
    if |names| > 1 {
      JoinShape(names[1..]);
      assert Strings.Join(names, '.')[|names[0]|] == '.';
    }
  }

  /** Leaves print as plain words, and the first character tells numbers from names. */
  lemma LeafShape(e: Type)
    requires Leaf(e) && Valid(e)
    ensures Print(e) != "" && Plain(Print(e))
    ensures NumberChar(Print(e)[0]) <==> NumberLeaf(e)
    ensures Reserved(Print(e)) <==> !NumberLeaf(e) && !e.Named?
  {
    match e {
      case Named(names, _, _) =>
        JoinShape(names);
        assert |names| > 1 ==> Print(e) != "any" && '.' in Print(e);
      case Literal(IntLit(v, suffix)) => IntLitText(v, suffix);
      case Literal(FloatLit(text)) => FloatLitText(text);
      case _ =>
    }
  }

  lemma LeafInjective(e1: Type, e2: Type)
    requires Leaf(e1) && Leaf(e2) && Valid(e1) && Valid(e2) && Print(e1) == Print(e2)
    ensures e1 == e2
  {
    LeafShape(e1);
    LeafShape(e2);
    match (e1, e2) {
      case (Literal(IntLit(v1, s1)), Literal(IntLit(v2, s2))) =>
        IntLitText(v1, s1);
        IntLitText(v2, s2);
        IntLitInjective(v1, s1, v2, s2);
      case (Literal(IntLit(v1, s1)), Literal(FloatLit(t2))) =>
        IntLitText(v1, s1);
        FloatLitText(t2);
      case (Literal(FloatLit(t1)), Literal(IntLit(v2, s2))) =>
        FloatLitText(t1);
        IntLitText(v2, s2);
      case (Literal(FloatLit(t1)), Literal(FloatLit(t2))) => FloatLitInjective(t1, t2);
      case (Named(n1, _, _), Named(n2, _, _)) => Strings.JoinInjective(n1, n2, '.');
      case _ => ReservedInjective(e1, e2);
    }
  }

  lemma ReservedInjective(e1: Type, e2: Type)
    requires Leaf(e1) && Leaf(e2) && !NumberLeaf(e1) && !NumberLeaf(e2) && !e1.Named? && !e2.Named?
    requires Print(e1) == Print(e2)
    ensures e1 == e2
  {
    assert |Print(e1)| == |Print(e2)| && Print(e1)[0] == Print(e2)[0];
  }

  // ----- reading from the right -----

  /** Text that can stand before a printed element: nothing, or something ending in a delimiter that
      opens or separates. */
  predicate Before(a: string)
  {
    a != "" ==> (Opener(a[|a| - 1]) || a[|a| - 1] == '|')
  }

  /** How many plain characters the string ends with. */
  function PlainTail(s: string): nat
  {
    if s == "" || Delimiter(s[|s| - 1]) then 0 else 1 + PlainTail(s[..|s| - 1])
  }

  lemma {:induction false} PlainTailOf(a: string, word: string)
    requires Before(a) && Plain(word)
    ensures PlainTail(a + word) == |word|
    decreases |word|
  {
    if word == "" { assert a + word == a; }
    else {
      PlainTailOf(a, word[..|word| - 1]);
      assert (a + word)[..|a + word| - 1] == a + word[..|word| - 1];
    }
  }

  lemma WordsReadBack(a: string, u: string, b: string, v: string)
    requires Before(a) && Before(b) && Plain(u) && Plain(v) && a + u == b + v
    ensures a == b && u == v
  {
    PlainTailOf(a, u);
    PlainTailOf(b, v);
    var n := |a|;
    assert (a + u)[..n] == a && (b + v)[..n] == b && (a + u)[n..] == u && (b + v)[n..] == v;
  }

  /** Escaped text after an opening quote, whatever backslashes it holds: its own quotes all follow
      a backslash, the opening one does not. */
  lemma {:induction false} StringsReadBack(a: string, u: string, b: string, v: string)
    requires Before(a) && Before(b) && a + "\"" + Escape(u) == b + "\"" + Escape(v)
    ensures a == b && u == v
    decreases |u| + |v|
  {
    hide Escape;
    var s := a + "\"" + Escape(u);
    NothingEscaped();
    if u == "" && v == "" {
      assert s[..|s| - 1] == a && s[..|s| - 1] == b;
    } else if u == "" {
      EndsEscaped(b, v);
    } else if v == "" {
      EndsEscaped(a, u);
    } else {
      EndsEscaped(a, u);
      EndsEscaped(b, v);
      StringsReadBack(a, u[..|u| - 1], b, v[..|v| - 1]);
      assert u == u[..|u| - 1] + [u[|u| - 1]] && v == v[..|v| - 1] + [v[|v| - 1]];
    }
  }

  lemma NothingEscaped()
    ensures Escape("") == ""
  {
  }

  lemma EndsEscaped(a: string, u: string)
    requires u != ""
    ensures var s := a + "\"" + Escape(u);
      var c := u[|u| - 1];
      && s[|s| - 1] == c
      && (c == '"' ==> |s| >= 2 && s[|s| - 2] == '\\')
      && s[..|s| - (if c == '"' then 2 else 1)] == a + "\"" + Escape(u[..|u| - 1])
  {
  }

  // ----- whole types -----

  /** An alternative as `Flat` makes them: not a union, and unions exactly inside brackets. */
  predicate Element(e: Type)
    decreases e
  {
    match e
    case List(inner) => Inside(inner)
    case Dict(key, value) => Inside(key) && Inside(value)
    case Literal(StrLit(_)) => true
    case _ => Leaf(e) && Valid(e)
  }

  predicate Inside(t: Option<Type>)
    decreases t
  {
    match t
    case Some(Union(es)) => es != [] && forall i | 0 <= i < |es| :: Element(es[i])
    case Some(_) => false
    case None => true
  }

  predicate Elements(es: seq<Type>)
  {
    es != [] && forall i | 0 <= i < |es| :: Element(es[i])
  }

  lemma {:induction false} PrintAllAppend(a: seq<Type>, b: seq<Type>)
    requires a != [] && b != []
    ensures PrintAll(a + b) == PrintAll(a) + "|" + PrintAll(b)
    decreases |b|
  {
    var n := |b| - 1;
    assert (a + b)[..|a + b| - 1] == a + b[..n];
    if n == 0 {
      assert a + b[..n] == a;
    } else {
      PrintAllAppend(a, b[..n]);
    }
  }

  lemma {:induction false} FlatPrints(t: Type)
    requires Valid(t)
    ensures Elements(Flat(t)) && PrintAll(Flat(t)) == Print(t)
    decreases t
  {
    match t {
      case List(inner) => InsidePrints(inner);
      case Dict(key, value) =>
        InsidePrints(key);
        InsidePrints(value);
      case Union(elements) => if elements != [] { FlatAllPrints(elements); }
      case _ =>
    }
  }

  lemma {:induction false} InsidePrints(t: Option<Type>)
    requires ValidOption(t)
    ensures Inside(NormOption(t)) && PrintOption(NormOption(t)) == PrintOption(t)
    decreases t
  {
    if t.Some? { FlatPrints(t.value); }
  }

  lemma {:induction false} FlatAllPrints(ts: seq<Type>)
    requires ts != [] && forall i | 0 <= i < |ts| :: Valid(ts[i])
    ensures Elements(FlatAll(ts)) && PrintAll(FlatAll(ts)) == PrintAll(ts)
    decreases ts
  {
    var n := |ts| - 1;
    FlatPrints(ts[n]);
    if n > 0 {
      FlatAllPrints(ts[..n]);
      PrintAllAppend(FlatAll(ts[..n]), Flat(ts[n]));
    }
  }

  datatype Kind = ListKind | DictKind | StringKind | LeafKind

  function KindOf(e: Type): Kind
  {
    match e
    case List(_) => ListKind
    case Dict(_, _) => DictKind
    case Literal(StrLit(_)) => StringKind
    case _ => LeafKind
  }

  function KindOfEnd(c: char): Kind
  {
    if c == ']' then ListKind else if c == '}' then DictKind else if c == '"' then StringKind else LeafKind
  }

  /** The last character tells the kind. */
  lemma LastCharacter(e: Type)
    requires Element(e)
    ensures var s := Print(e); s != "" && KindOf(e) == KindOfEnd(s[|s| - 1]) && s[|s| - 1] !in "[{:|"
  {
    if KindOf(e) == LeafKind { LeafShape(e); }
  }

  lemma LastOfAll(es: seq<Type>)
    requires Elements(es)
    ensures var s := PrintAll(es); s != "" && s[|s| - 1] !in "[{:|"
  {
    var last := es[|es| - 1];
    assert Element(last);
    LastCharacter(last);
    var s := PrintAll(es);
    assert s[|s| - |Print(last)|..] == Print(last);
    hide Print, PrintAll;
    assert s[|s| - 1] == Print(last)[|Print(last)| - 1];
  }

  /** An optional type after an opening delimiter reads back. */
  lemma {:induction false} OptionReadsBack(a: string, t: Option<Type>, b: string, u: Option<Type>, open: char)
    requires Opener(open) && Inside(t) && Inside(u)
    requires a + [open] + PrintOption(t) == b + [open] + PrintOption(u)
    ensures a == b && t == u
    decreases |PrintOption(t)|, 3
  {
    var s := a + [open] + PrintOption(t);
    assert s == b + [open] + PrintOption(u);
    if t.Some? { LastOfAll(t.value.elements); }
    if u.Some? { LastOfAll(u.value.elements); }
    assert t.Some? <==> s[|s| - 1] !in "[{:|";
    assert u.Some? <==> s[|s| - 1] !in "[{:|";
    if t.Some? {
      AllReadBack(a + [open], t.value.elements, b + [open], u.value.elements);
      assert a == (a + [open])[..|a|] && b == (b + [open])[..|b|];
    } else {
      assert s[..|s| - 1] == a && s[..|s| - 1] == b;
    }
  }

  lemma {:induction false} ListReadsBack(a: string, t: Option<Type>, b: string, u: Option<Type>)
    requires Inside(t) && Inside(u)
    requires a + Print(List(t)) == b + Print(List(u))
    ensures a == b && t == u
    decreases |Print(List(t))|, 0
  {
    var s := a + Print(List(t));
    assert s[..|s| - 1] == a + "[" + PrintOption(t) && s[..|s| - 1] == b + "[" + PrintOption(u);
    OptionReadsBack(a, t, b, u, '[');
  }

  lemma DictText(a: string, key: Option<Type>, value: Option<Type>)
    ensures var s := a + Print(Dict(key, value));
      s[..|s| - 1] == a + "{" + PrintOption(key) + ":" + PrintOption(value)
    ensures |PrintOption(key)| < |Print(Dict(key, value))| && |PrintOption(value)| < |Print(Dict(key, value))|
  {
    var k, v := PrintOption(key), PrintOption(value);
    assert Print(Dict(key, value)) == "{" + k + ":" + v + "}";
    hide Print, PrintOption;
    assert a + ("{" + k + ":" + v + "}") == (a + "{" + k + ":" + v) + "}";
  }

  lemma {:induction false} DictReadsBack(a: string, k1: Option<Type>, v1: Option<Type>,
                                         b: string, k2: Option<Type>, v2: Option<Type>)
    requires Inside(k1) && Inside(v1) && Inside(k2) && Inside(v2)
    requires a + Print(Dict(k1, v1)) == b + Print(Dict(k2, v2))
    ensures a == b && k1 == k2 && v1 == v2
    decreases |Print(Dict(k1, v1))|, 0
  {
    DictText(a, k1, v1);
    DictText(b, k2, v2);
    hide Print, PrintOption, Inside;
    OptionReadsBack(a + "{" + PrintOption(k1), v1, b + "{" + PrintOption(k2), v2, ':');
    OptionReadsBack(a, k1, b, k2, '{');
  }

  lemma StrReadsBack(a: string, u: string, b: string, v: string)
    requires Before(a) && Before(b) && a + Print(Literal(StrLit(u))) == b + Print(Literal(StrLit(v)))
    ensures a == b && u == v
  {
    var s := a + Print(Literal(StrLit(u)));
    assert s[..|s| - 1] == a + "\"" + Escape(u) && s[..|s| - 1] == b + "\"" + Escape(v);
    StringsReadBack(a, u, b, v);
  }

  lemma LeafReadsBack(a: string, e1: Type, b: string, e2: Type)
    requires Before(a) && Before(b) && Leaf(e1) && Valid(e1) && Leaf(e2) && Valid(e2) && a + Print(e1) == b + Print(e2)
    ensures a == b && e1 == e2
  {
    LeafShape(e1);
    LeafShape(e2);
    WordsReadBack(a, Print(e1), b, Print(e2));
    LeafInjective(e1, e2);
  }

  lemma SameKind(a: string, e1: Type, b: string, e2: Type)
    requires Element(e1) && Element(e2) && a + Print(e1) == b + Print(e2)
    ensures KindOf(e1) == KindOf(e2)
  {
    var s := a + Print(e1);
    LastCharacter(e1);
    LastCharacter(e2);
    assert s[|s| - 1] == Print(e1)[|Print(e1)| - 1] && s[|s| - 1] == Print(e2)[|Print(e2)| - 1];
  }

  lemma {:induction false} OneReadsBack(a: string, e1: Type, b: string, e2: Type)
    requires Before(a) && Before(b) && Element(e1) && Element(e2) && a + Print(e1) == b + Print(e2)
    ensures a == b && e1 == e2
    decreases |Print(e1)|, 1
  {
    SameKind(a, e1, b, e2);
    hide Print;
    match (e1, e2) {
      case (List(t), List(u)) => ListReadsBack(a, t, b, u);
      case (Dict(k1, v1), Dict(k2, v2)) => DictReadsBack(a, k1, v1, b, k2, v2);
      case (Literal(StrLit(u)), Literal(StrLit(v))) => StrReadsBack(a, u, b, v);
      case _ => LeafReadsBack(a, e1, b, e2);
    }
  }

  /** What stands before the last element of a printed list. */
  function Front(a: string, es: seq<Type>): string
    requires es != []
  {
    if |es| == 1 then a else a + PrintAll(es[..|es| - 1]) + "|"
  }

  lemma FrontAndLast(a: string, es: seq<Type>)
    requires es != [] && a != "" && Opener(a[|a| - 1])
    ensures a + PrintAll(es) == Front(a, es) + Print(es[|es| - 1])
    ensures var f := Front(a, es);
      && f != "" && Before(f) && (|es| == 1 <==> f[|f| - 1] != '|')
      && (|es| > 1 ==> f[..|f| - 1] == a + PrintAll(es[..|es| - 1]))
  {
    hide Print;
    var n := |es| - 1;
    if n > 0 {
      assert Front(a, es)[..|Front(a, es)| - 1] == a + PrintAll(es[..n]);
      assert a + PrintAll(es) == a + (PrintAll(es[..n]) + "|" + Print(es[n]));
    }
  }

  lemma {:induction false} AllReadBack(a: string, es1: seq<Type>, b: string, es2: seq<Type>)
    requires a != "" && Opener(a[|a| - 1]) && b != "" && Opener(b[|b| - 1])
    requires Elements(es1) && Elements(es2) && a + PrintAll(es1) == b + PrintAll(es2)
    ensures a == b && es1 == es2
    decreases |PrintAll(es1)|, 2
  {
    hide *;
    LastElement(es1);
    LastElement(es2);
    FrontAndLast(a, es1);
    FrontAndLast(b, es2);
    var n1, n2 := |es1| - 1, |es2| - 1;
    OneReadsBack(Front(a, es1), es1[n1], Front(b, es2), es2[n2]);
    assert es1 == es1[..n1] + [es1[n1]] && es2 == es2[..n2] + [es2[n2]];
    if n1 > 0 {
      AllReadBack(a, es1[..n1], b, es2[..n2]);
    } else {
      FrontOfOne(a, es1);
      FrontOfOne(b, es2);
    }
  }

  lemma LastElement(es: seq<Type>)
    requires Elements(es)
    ensures var n := |es| - 1;
      n >= 0 && Element(es[n]) && (n > 0 ==> Elements(es[..n]))
    ensures var n := |es| - 1;
      |Print(es[n])| <= |PrintAll(es)| && (n > 0 ==> |PrintAll(es[..n])| < |PrintAll(es)|)
  {
  }

  lemma FrontOfOne(a: string, es: seq<Type>)
    requires |es| == 1
    ensures Front(a, es) == a
  {
  }

  /** Two types print the same exactly when they are the same up to union nesting and the origin of
      names; string literals may hold quotes and backslashes. */
  lemma PrintDeterminesType(t1: Type, t2: Type)
    requires Valid(t1) && Valid(t2)
    ensures Print(t1) == Print(t2) <==> SameType(t1, t2)
  {
    FlatPrints(t1);
    FlatPrints(t2);
    if Print(t1) == Print(t2) {
      AllReadBack("[", Flat(t1), "[", Flat(t2));
    }
  }

  /** The type a keyword stands for. */
  function KeywordType(name: string): Type
    requires Reserved(name)
  {
    if name == "any" then Any
    else if name == "bool" then Basic(BoolType)
    else if name == "int" then Basic(IntType)
    else if name == "float" then Basic(FloatType)
    else if name == "str" then Basic(StrType)
    else Literal(BoolLit(name == "True"))
  }

  /** Another type that prints like `t1`. */
  ghost predicate Confused(t1: Type, t2: Type)
  {
    Valid(t2) && Print(t1) == Print(t2) && !SameType(t1, t2)
  }

  /** A name of one segment prints like some other type if and only if it spells a keyword; the other
      type is the keyword's. */
  lemma ReservedNameIsAmbiguous(name: string)
    requires ValidName(name) && !NumberChar(name[0])
    ensures (exists t :: Confused(Named([name], "", Load), t)) <==> Reserved(name)
    ensures Reserved(name) ==> Confused(Named([name], "", Load), KeywordType(name))
  {
    var t1 := Named([name], "", Load);
    if Reserved(name) {
      KeywordPrints(name);
    } else {
      hide Print, SameType;
      assert Valid(t1);
      forall t ensures !Confused(t1, t) {
        if Valid(t) { PrintDeterminesType(t1, t); }
      }
    }
  }

  lemma KeywordPrints(name: string)
    requires Reserved(name)
    ensures Confused(Named([name], "", Load), KeywordType(name))
  {
  }
  // ----- words and signs -----

  /** The type that one word stands for, as the parser takes it (kclvm/parser/src/parser/ty.rs:56-108). */
  function WordType(word: string): Type
  {
    if word == "any" then Any
    else if word == "True" then Literal(BoolLit(true))
    else if word == "False" then Literal(BoolLit(false))
    else if word == "bool" then Basic(BoolType)
    else if word == "int" then Basic(IntType)
    else if word == "float" then Basic(FloatType)
    else if word == "str" then Basic(StrType)
    else Named([word], "", Load)
  }

  /** The words that are printed are parsed as the types they were printed for. */
  lemma WordsParseBack(t: Type)
    requires t.Any? || t.Basic? || (t.Literal? && t.lit.BoolLit?) || (t.Named? && |t.names| == 1 && ValidNames(t.names))
    ensures Flat(WordType(Print(t))) == Flat(t)
  {
    if t.Named? {
      assert Print(t) == t.names[0] && t.names == [t.names[0]];
    }
  }

  /** The signs around and between the parts of larger types. */
  lemma SignsOfTypes(t: Type, u: Type, v: Type)
    ensures Print(List(None)) == "[]" && Print(List(Some(t))) == "[" + Print(t) + "]"
    ensures Print(Dict(None, None)) == "{:}" && Print(Dict(Some(t), Some(u))) == "{" + Print(t) + ":" + Print(u) + "}"
    ensures Print(Union([t, u, v])) == Print(t) + "|" + Print(u) + "|" + Print(v)
  {
    BarsOfUnion(t, u, v);
    hide PrintAll;
  }

  lemma BarsOfUnion(t: Type, u: Type, v: Type)
    ensures PrintAll([t, u, v]) == Print(t) + "|" + Print(u) + "|" + Print(v)
  {
    hide Print;
    assert [t, u][..1] == [t] && [t, u, v][..2] == [t, u];
    assert PrintAll([t]) == Print(t);
    assert PrintAll([t, u]) == Print(t) + "|" + Print(u);
  }

  lemma TextsOfLeaves()
    ensures Print(Named(["a", "B"], "", Load)) == "a.B" && Print(Literal(StrLit("a\"b"))) == "\"a\\\"b\""
    ensures Print(Literal(IntLit(-12, Some(SKi)))) == "-12Ki" && Print(Literal(FloatLit("3"))) == "3.0"
  {
    assert ["a", "B"][1..] == ["B"];
    assert "a\"b"[..2] == "a\"" && "a\""[..1] == "a" && "a"[..0] == "";
    assert Numeral(12) == Numeral(1) + "2" && Numeral(1) == "1";
  }
}
