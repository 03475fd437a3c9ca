/** What the string scanner accepts, said without scanning: a quote is escaped when an odd run of
    backslashes stands before it. */
module StringGrammar {
  import opened LexerSpec

  /** How many backslashes stand directly before `k`, not counting any before `i`. */
  function Run(s: string, i: nat, k: nat): nat
  {
    if k <= i || k > |s| || s[k - 1] != '\\' then 0 else 1 + Run(s, i, k - 1)
  }

  predicate Escaped(s: string, i: nat, k: nat) { Run(s, i, k) % 2 == 1 }

  /** The quote, or three of them, at `k` would close a string whose text starts at `i`. */
  predicate Closes(s: string, quote: char, triple: bool, i: nat, k: nat)
  {
    && i <= k < |s| && s[k] == quote && !Escaped(s, i, k)
    && (triple ==> CharAt(s, k + 1) == quote && CharAt(s, k + 2) == quote)
  }

  /** A raw line break at `k` that follows neither the opening quote nor an escaped character. */
  predicate Breaks(s: string, quote: char, i: nat, k: nat)
  {
    && i < k < |s| && LineBreak(s[k])
    && !((s[k - 1] == '\\' || s[k - 1] == quote) && Escaped(s, i, k - 1))
  }

  /** The string whose text starts at `i` ends before `n`: with the first quote that closes it, and
      with no line break cutting it short. */
  ghost predicate EndsAt(s: string, quote: char, triple: bool, i: nat, n: nat)
  {
    var w := if triple then 3 else 1;
    && i + w <= n && Closes(s, quote, triple, i, n - w)
    && (forall k | i <= k < n - w :: !Closes(s, quote, triple, i, k))
    && (!triple ==> forall k | i < k < n - w :: !Breaks(s, quote, i, k))
  }

  lemma {:induction false} RunSplits(s: string, i: nat, j: nat, k: nat)
    requires i <= j <= k <= |s|
    ensures Run(s, j, k) <= k - j
    ensures Run(s, i, k) == Run(s, j, k) + if Run(s, j, k) == k - j then Run(s, i, j) else 0
    decreases k
  {
    if j < k { RunSplits(s, i, j, k - 1); }
  }

  /** From `j` on it makes no difference whether runs are counted from `i` or from `j`. */
  lemma SameEscapes(s: string, i: nat, j: nat, k: nat)
    requires i <= j <= k <= |s|
    requires !Escaped(s, i, j) || (j < k && s[j] != '\\')
    ensures Escaped(s, i, k) == Escaped(s, j, k)
  {
    RunSplits(s, i, j, k);
    if j < k && s[j] != '\\' {
      RunSplits(s, j, j + 1, k);
      assert Run(s, j, j + 1) == 0;
    }
  }

  /** The characters from `i` to `j` are one unit: an escape pair, or a character that is neither
      escaped, nor a closing quote, nor cut off by a line break. */
  predicate Unit(s: string, quote: char, triple: bool, i: nat, j: nat)
  {
    if i < |s| && s[i] == '\\' && (CharAt(s, i + 1) == '\\' || CharAt(s, i + 1) == quote) then j == i + 2
    else i < |s| && j == i + 1 && !Closes(s, quote, triple, i, i) && (!triple ==> !LineBreak(CharAt(s, j)))
  }

  /** A unit leaves what follows it unescaped, or is a lone backslash that escapes nothing. */
  lemma UnitParity(s: string, quote: char, triple: bool, i: nat, j: nat)
    requires Quote(quote) && Unit(s, quote, triple, i, j)
    ensures i < j <= |s|
    ensures !Escaped(s, i, j) || (j < |s| ==> s[j] != '\\' && s[j] != quote)
  {
    assert Run(s, i, i) == 0;
    assert Run(s, i, i + 1) == if s[i] == '\\' then 1 else 0;
  }

  lemma UnitKeepsClosing(s: string, quote: char, triple: bool, i: nat, j: nat, k: nat)
    requires Quote(quote) && Unit(s, quote, triple, i, j) && i <= k
    ensures Closes(s, quote, triple, i, k) <==> j <= k && Closes(s, quote, triple, j, k)
  {
    UnitParity(s, quote, triple, i, j);
    if k < |s| && s[k] == quote {
      if j <= k { SameEscapes(s, i, j, k); }
      else if k == i + 1 { assert Run(s, i, k) == 1 + Run(s, i, i); }
    }
  }

  lemma UnitKeepsBreaks(s: string, quote: char, triple: bool, i: nat, j: nat, k: nat)
    requires Quote(quote) && Unit(s, quote, triple, i, j) && !triple && i < k
    ensures Breaks(s, quote, i, k) <==> j < k && Breaks(s, quote, j, k)
  {
    UnitParity(s, quote, triple, i, j);
    if k < |s| && LineBreak(s[k]) {
      if j < k {
        if s[k - 1] == '\\' || s[k - 1] == quote { SameEscapes(s, i, j, k - 1); }
      } else if s[i] == '\\' && k == i + 2 {
        assert Run(s, i, i + 1) == 1 + Run(s, i, i);
      }
    }
  }

  lemma UnitKeepsEnd(s: string, quote: char, triple: bool, i: nat, j: nat, n: nat)
    requires Quote(quote) && Unit(s, quote, triple, i, j)
    ensures EndsAt(s, quote, triple, i, n) <==> EndsAt(s, quote, triple, j, n)
  {
    hide Closes, Breaks, Unit;
    var w := if triple then 3 else 1;
    forall k: nat | i <= k
      ensures Closes(s, quote, triple, i, k) <==> j <= k && Closes(s, quote, triple, j, k)
    {
      UnitKeepsClosing(s, quote, triple, i, j, k);
    }
    forall k: nat | !triple && i < k
      ensures Breaks(s, quote, i, k) <==> j < k && Breaks(s, quote, j, k)
    {
      UnitKeepsBreaks(s, quote, triple, i, j, k);
    }
    UnitParity(s, quote, triple, i, j);
  }

  /** The scanner closes a string at `n` exactly when the string ends there by the grammar. */
  lemma {:induction false} ScanMeetsGrammar(s: string, quote: char, triple: bool, i: nat, n: nat)
    requires i <= |s| && Quote(quote)
    ensures StringScan(s, quote, triple, i) == (true, n) <==> EndsAt(s, quote, triple, i, n)
    decreases |s| - i
  {
    if i == |s| {
    } else if Closes(s, quote, triple, i, i) {
    } else if Unit(s, quote, triple, i, i + 2) {
      UnitKeepsEnd(s, quote, triple, i, i + 2, n);
      ScanMeetsGrammar(s, quote, triple, i + 2, n);
    } else if Unit(s, quote, triple, i, i + 1) {
      UnitKeepsEnd(s, quote, triple, i, i + 1, n);
      ScanMeetsGrammar(s, quote, triple, i + 1, n);
    } else {
      assert !triple && LineBreak(CharAt(s, i + 1));
      assert i + 1 < |s| ==> Breaks(s, quote, i, i + 1);
    }
  }

  /** A text that opens with a quote, raw or not, is one closed string token of `n` characters exactly
      when the grammar ends it at `n`. */
  lemma StringTokenMeetsGrammar(cc: CharClass, s: string, n: nat)
    requires s != "" && StringStart(s) && !IsWhitespace(s[0]) && s[0] != '#'
    ensures var open := if Quote(s[0]) then 1 else 2;
      var triple := Triple(s, open);
      (TokenSpec(cc, s).1 == n && TokenSpec(cc, s).0.kind == Str(true, triple))
      <==> EndsAt(s, s[open - 1], triple, if triple then open + 2 else open, n)
  {
    var open := if Quote(s[0]) then 1 else 2;
    var triple := Triple(s, open);
    ScanMeetsGrammar(s, s[open - 1], triple, if triple then open + 2 else open, n);
  }
}
