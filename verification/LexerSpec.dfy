/** The tokens of the low-level lexer and what each one covers, kclvm/lexer/src. */
module LexerSpec {

  /** The Unicode predicates the lexer takes from elsewhere. */
  datatype CharClass = CharClass(idStart: char -> bool, idContinue: char -> bool, emoji: char -> bool) {
    predicate Emoji(c: char) { !Ascii(c) && emoji(c) }

    /** Identifier characters on ASCII; a start can also continue and is no whitespace. */
    ghost predicate Standard()
    {
      && (forall c | Ascii(c) :: idStart(c) <==> Letter(c) || c == '_')
      && (forall c | Ascii(c) :: idContinue(c) <==> Letter(c) || c == '_' || '0' <= c <= '9')
      && (forall c | idStart(c) :: idContinue(c) && !IsWhitespace(c))
    }
  }

  predicate Ascii(c: char) { c as int < 128 }
  predicate Letter(c: char) { 'a' <= c <= 'z' || 'A' <= c <= 'Z' }
  predicate Decimal(c: char) { '0' <= c <= '9' }
  predicate Hexadecimal(c: char) { Decimal(c) || 'a' <= c <= 'f' || 'A' <= c <= 'F' }
  predicate Quote(c: char) { c == '\'' || c == '"' }
  predicate LineBreak(c: char) { c == '\r' || c == '\n' || c == EOF_CHAR }

  const EOF_CHAR: char := '\0'

  predicate IsWhitespace(c: char)
  {
    var n := c as int;
    n == 0x0B || n == 0x0C || n == 0x0D || n == 0x85 || n == 0x200E || n == 0x200F || n == 0x2028 || n == 0x2029
  }

  datatype Base = BinaryBase | OctalBase | HexadecimalBase | DecimalBase

  datatype LiteralKind =
    | Int(base: Base, emptyInt: bool)
    | Float(base: Base, emptyExponent: bool)
    | Str(terminated: bool, tripleQuoted: bool)

  datatype TokenKind =
    | LineComment | Tab | Space | Newline | Whitespace | Ident | InvalidIdent
    | LineContinue | InvalidLineContinue | Unknown
    /** `suffixStart` is a byte offset into the token. */
    | Literal(kind: LiteralKind, suffixStart: nat)
    | Operator(op: Op)

  datatype Op =
    | Semi | Comma | Dot | DotDotDot | OpenParen | CloseParen | OpenBrace | CloseBrace | OpenBracket
    | CloseBracket | At | Tilde | Question | Colon | Dollar | Eq | Bang | Lt | Gt | EqEq | BangEq | GtEq | LtEq
    | Minus | And | Or | Plus | Star | Slash | Caret | Percent | StarStar | SlashSlash | LtLt | GtGt | PlusEq
    | MinusEq | StarEq | SlashEq | PercentEq | AndEq | OrEq | CaretEq | StarStarEq | SlashSlashEq | LtLtEq | GtGtEq

  datatype Token = Token(kind: TokenKind, len: nat)

  /** The spellings documented at the token kinds. */
  function Spelling(op: Op): (s: string)
    ensures 1 <= |s| <= 3
  {
    match op
    case Semi => ";" case Comma => "," case Dot => "." case DotDotDot => "..."
    case OpenParen => "(" case CloseParen => ")" case OpenBrace => "{" case CloseBrace => "}"
    case OpenBracket => "[" case CloseBracket => "]" case At => "@" case Tilde => "~"
    case Question => "?" case Colon => ":" case Dollar => "$" case Eq => "=" case Bang => "!"
    case Lt => "<" case Gt => ">" case EqEq => "==" case BangEq => "!=" case GtEq => ">=" case LtEq => "<="
    case Minus => "-" case And => "&" case Or => "|" case Plus => "+" case Star => "*" case Slash => "/"
    case Caret => "^" case Percent => "%" case StarStar => "**" case SlashSlash => "//" case LtLt => "<<"
    case GtGt => ">>" case PlusEq => "+=" case MinusEq => "-=" case StarEq => "*=" case SlashEq => "/="
    case PercentEq => "%=" case AndEq => "&=" case OrEq => "|=" case CaretEq => "^=" case StarStarEq => "**="
    case SlashSlashEq => "//=" case LtLtEq => "<<=" case GtGtEq => ">>="
  }

  /** The operator that starts with `first`, has `len` characters, and ends in an equals sign or not. */
  function OpNamed(len: nat, first: char, eq: bool): Op {
    if len == 1 then
      match first
      case ';' => Semi case ',' => Comma case '.' => Dot case '(' => OpenParen case ')' => CloseParen
      case '{' => OpenBrace case '}' => CloseBrace case '[' => OpenBracket case ']' => CloseBracket
      case '@' => At case '~' => Tilde case '?' => Question case ':' => Colon case '$' => Dollar
      case '=' => Eq case '!' => Bang case '<' => Lt case '>' => Gt case '-' => Minus case '&' => And
      case '|' => Or case '+' => Plus case '*' => Star case '/' => Slash case '^' => Caret
      case _ => Percent
    else if len == 2 && eq then
      match first
      case '=' => EqEq case '!' => BangEq case '>' => GtEq case '<' => LtEq case '+' => PlusEq
      case '-' => MinusEq case '*' => StarEq case '/' => SlashEq case '%' => PercentEq case '&' => AndEq
      case '|' => OrEq case _ => CaretEq
    else if len == 2 then
      match first
      case '*' => StarStar case '/' => SlashSlash case '<' => LtLt case _ => GtGt
    else
      match first
      case '.' => DotDotDot case '*' => StarStarEq case '/' => SlashSlashEq case '<' => LtLtEq
      case _ => GtGtEq
  }

  lemma ShortOpNamed(op: Op)
    requires |Spelling(op)| == 1
    ensures OpNamed(1, Spelling(op)[0], Spelling(op)[0] == '=') == op
  {
  }

  lemma LongOpNamed(op: Op)
    requires |Spelling(op)| > 1
    ensures var s := Spelling(op); OpNamed(|s|, s[0], s[|s| - 1] == '=') == op
  {
  }

  lemma OpNamedBySpelling(op: Op)
    ensures var s := Spelling(op); OpNamed(|s|, s[0], s[|s| - 1] == '=') == op
  {
    hide *;
    if |Spelling(op)| == 1 { ShortOpNamed(op); } else { LongOpNamed(op); }
  }

  lemma SpellingInjective(a: Op, b: Op)
    requires Spelling(a) == Spelling(b)
    ensures a == b
  {
    hide *;
    OpNamedBySpelling(a);
    OpNamedBySpelling(b);
  }

  /** The longest spelling the text starts with. */
  ghost predicate Longest(s: string, op: Op)
  {
    Spelling(op) <= s && forall other | Spelling(other) <= s :: |Spelling(other)| <= |Spelling(op)|
  }

  lemma LongestUnique(s: string, a: Op, b: Op)
    requires Longest(s, a) && Longest(s, b)
    ensures a == b
  {
    assert Spelling(a) == s[..|Spelling(a)|] && Spelling(b) == s[..|Spelling(b)|];
    SpellingInjective(a, b);
  }

  // What one or two characters of lookahead must rule out for a spelling to be the longest.

  lemma SymbolsArePrintable(c: char)
    requires TakesEq(c)
    ensures c != EOF_CHAR && c != '.' && (Doubles(c) ==> c != '=')
  {
  }

  predicate TakesEq(c: char)
  {
    || c == '=' || c == '!' || c == '<' || c == '>' || c == '-' || c == '&'
    || c == '|' || c == '+' || c == '*' || c == '/' || c == '^' || c == '%'
  }

  predicate Doubles(c: char) { c == '<' || c == '>' || c == '*' || c == '/' }

  predicate IsPunctuation(c: char)
  {
    || c == ';' || c == ',' || c == '.' || c == '(' || c == ')' || c == '{' || c == '}'
    || c == '[' || c == ']' || c == '@' || c == '~' || c == '?' || c == ':' || c == '$'
  }

  lemma LongerSpellings(op: Op)
    ensures var t := Spelling(op);
      && (|t| == 2 ==> (t[1] == '=' && TakesEq(t[0])) || (t[1] == t[0] && Doubles(t[0])))
      && (|t| == 3 ==> t == "..." || (t[2] == '=' && t[1] == t[0] && Doubles(t[0])))
  {
  }

  lemma BareIsLongest(s: string, op: Op)
    requires s != "" && Spelling(op) == [s[0]]
    requires TakesEq(s[0]) ==> CharAt(s, 1) != '='
    requires Doubles(s[0]) ==> CharAt(s, 1) != s[0]
    requires s[0] == '.' ==> CharAt(s, 1) != '.' || CharAt(s, 2) != '.'
    ensures Longest(s, op)
  {
    hide Spelling, TakesEq, Doubles;
    assert s[..1] == [s[0]];
    forall other | Spelling(other) <= s
      ensures |Spelling(other)| <= 1
    {
      LongerSpellings(other);
    }
  }

  lemma PairIsLongest(s: string, op: Op)
    requires |s| >= 2 && Spelling(op) == s[..2]
    requires s[0] == s[1] && Doubles(s[0]) ==> CharAt(s, 2) != '='
    ensures Longest(s, op)
  {
    hide Spelling, TakesEq, Doubles;
    LongerSpellings(op);
    assert s[0] == Spelling(op)[0] && s[1] == Spelling(op)[1];
    NoDot();
    forall other | Spelling(other) <= s
      ensures |Spelling(other)| <= 2
    {
      LongerSpellings(other);
    }
  }

  lemma NoDot()
    ensures !TakesEq('.') && !Doubles('.')
  {
  }

  lemma TripleIsLongest(s: string, op: Op)
    requires |Spelling(op)| == 3 && Spelling(op) <= s
    ensures Longest(s, op)
  {
  }

  predicate StartsOperator(c: char) { IsPunctuation(c) || TakesEq(c) }

  lemma BlanksAreNoOperators()
    ensures !StartsOperator('\t') && !StartsOperator(' ') && !StartsOperator('\n') && !StartsOperator('\\')
  {
  }

  lemma OperatorFirst(op: Op)
    ensures StartsOperator(Spelling(op)[0])
  {
  }

  // ----- bytes -----

  function Utf8Len(c: char): nat
  {
    var n := c as int;
    if n < 0x80 then 1 else if n < 0x800 then 2 else if n < 0x10000 then 3 else 4
  }

  function Bytes(s: string): nat
  {
    if s == "" then 0 else Utf8Len(s[0]) + Bytes(s[1..])
  }

  lemma {:induction false} BytesAppend(a: string, b: string)
    ensures Bytes(a + b) == Bytes(a) + Bytes(b)
    decreases |a|
  {
    if a == "" { assert a + b == b; }
    else {
      BytesAppend(a[1..], b);
      assert (a + b)[1..] == a[1..] + b;
    }
  }

  lemma BytesSplit(s: string, n: nat)
    requires n <= |s|
    ensures Bytes(s) == Bytes(s[..n]) + Bytes(s[n..])
    ensures n > 0 ==> Bytes(s[..n]) > 0
  {
    BytesAppend(s[..n], s[n..]);
    assert s == s[..n] + s[n..];
  }

  // ----- scanning -----

  /** The character at `i`, or the end-of-file character past the end. */
  function CharAt(s: string, i: nat): char
  {
    if i < |s| then s[i] else EOF_CHAR
  }

  /** The length of the longest prefix of `s[i..]` whose characters all satisfy `p`. */
  function WhileLen(s: string, i: nat, p: char -> bool): (n: nat)
    ensures i <= |s| ==> i + n <= |s|
    ensures forall j | i <= j < i + n :: j < |s| && p(s[j])
    ensures i + n < |s| ==> !p(s[i + n])
    decreases |s| - i
  {
    if i < |s| && p(s[i]) then 1 + WhileLen(s, i + 1, p) else 0
  }

  /** Where a scan of characters satisfying `p` ends. */
  function Skip(s: string, i: nat, p: char -> bool): (j: nat)
    requires i <= |s|
    ensures i <= j <= |s|
  {
    i + WhileLen(s, i, p)
  }

  predicate DecimalOrUnderscore(c: char) { Decimal(c) || c == '_' }
  predicate HexadecimalOrUnderscore(c: char) { Hexadecimal(c) || c == '_' }

  /** A digit other than an underscore occurs in `s[i..j]`. */
  predicate HasDigits(s: string, i: nat, j: nat)
    requires i <= j <= |s|
  {
    exists k | i <= k < j :: s[k] != '_'
  }

  lemma NoDigits(s: string, n: nat)
    requires n <= |s|
    ensures !HasDigits(s, n, n)
  {
  }

  /** One more digit of a run. */
  lemma DigitStep(s: string, n: nat, i: nat, p: char -> bool)
    requires n <= i < |s| && p(s[i])
    ensures Skip(s, i + 1, p) == Skip(s, i, p)
    ensures HasDigits(s, n, i + 1) <==> HasDigits(s, n, i) || s[i] != '_'
  {
  }

  // Numbers: the result is the kind and the index after the number.

  function NumberSpec(cc: CharClass, s: string): (r: (LiteralKind, nat))
    requires s != "" && Decimal(s[0])
    ensures 1 <= r.1 <= |s|
  {
    if s[0] != '0' then NumberRest(cc, s, Skip(s, 1, DecimalOrUnderscore), DecimalBase)
    else
      var c := CharAt(s, 1);
      if c == 'b' then PrefixedNumber(cc, s, BinaryBase, DecimalOrUnderscore)
      else if c == 'o' || Decimal(c) then PrefixedNumber(cc, s, OctalBase, DecimalOrUnderscore)
      else if c == 'x' then PrefixedNumber(cc, s, HexadecimalBase, HexadecimalOrUnderscore)
      else if c == '_' || c == '.' || c == 'e' || c == 'E' then
        NumberRest(cc, s, Skip(s, 1, DecimalOrUnderscore), DecimalBase)
      else (Int(DecimalBase, false), 1)
  }

  function PrefixedNumber(cc: CharClass, s: string, base: Base, digit: char -> bool): (r: (LiteralKind, nat))
    requires |s| >= 2
    ensures 2 <= r.1 <= |s|
  {
    var n := Skip(s, 2, digit);
    if HasDigits(s, 2, n) then NumberRest(cc, s, n, base) else (Int(base, true), n)
  }

  /** A fraction, an exponent, or the end of an integer at `n`. */
  function NumberRest(cc: CharClass, s: string, n: nat, base: Base): (r: (LiteralKind, nat))
    requires n <= |s|
    ensures n <= r.1 <= |s|
  {
    var c, next := CharAt(s, n), CharAt(s, n + 1);
    if c == '.' && next != '.' && !cc.idStart(next) then FractionSpec(s, n + 1, base)
    else if c == 'e' || c == 'E' then ExponentSpec(s, n + 1, base)
    else (Int(base, false), n)
  }

  function FractionSpec(s: string, i: nat, base: Base): (r: (LiteralKind, nat))
    requires i <= |s|
    ensures i <= r.1 <= |s|
  {
    if !Decimal(CharAt(s, i)) then (Float(base, false), i)
    else
      var m := Skip(s, i, DecimalOrUnderscore);
      if CharAt(s, m) == 'e' || CharAt(s, m) == 'E' then ExponentSpec(s, m + 1, base)
      else (Float(base, false), m)
  }

  function ExponentSpec(s: string, i: nat, base: Base): (r: (LiteralKind, nat))
    requires i <= |s|
    ensures i <= r.1 <= |s|
  {
    var j := if CharAt(s, i) == '-' || CharAt(s, i) == '+' then i + 1 else i;
    var m := Skip(s, j, DecimalOrUnderscore);
    (Float(base, !HasDigits(s, j, m)), m)
  }

  /** The end of a literal suffix at `n`. */
  function SuffixEnd(cc: CharClass, s: string, n: nat): (m: nat)
    requires n <= |s|
    ensures n <= m <= |s|
  {
    if n < |s| && cc.idStart(s[n]) then Skip(s, n + 1, cc.idContinue) else n
  }

  // Strings: whether the string is closed, and the index after it.

  predicate Triple(s: string, i: nat)
    requires 0 < i <= |s|
  {
    CharAt(s, i) == s[i - 1] && CharAt(s, i + 1) == s[i - 1] && i + 1 < |s|
  }

  /** Scans from `i`, inside a string. */
  function StringScan(s: string, quote: char, triple: bool, i: nat): (r: (bool, nat))
    requires i <= |s| && Quote(quote)
    ensures i <= r.1 <= |s|
    ensures r.0 ==> i < r.1
    decreases |s| - i
  {
    if i == |s| then (false, i)
    else if s[i] == '\\' && (CharAt(s, i + 1) == '\\' || CharAt(s, i + 1) == quote) then
      StringScan(s, quote, triple, i + 2)
    else if s[i] == quote then
      if !triple then (true, i + 1)
      else if CharAt(s, i + 1) == quote && CharAt(s, i + 2) == quote then (true, i + 3)
      else StringScan(s, quote, triple, i + 1)
    else if !triple && LineBreak(CharAt(s, i + 1)) then (false, i + 1)
    else StringScan(s, quote, triple, i + 1)
  }

  /** A string whose opening quote is at `i - 1`. */
  function StringSpec(s: string, i: nat): (r: (LiteralKind, nat))
    requires 0 < i <= |s| && Quote(s[i - 1])
    ensures i <= r.1 <= |s|
  {
    var triple := Triple(s, i);
    var (terminated, n) := StringScan(s, s[i - 1], triple, if triple then i + 2 else i);
    (Str(terminated, terminated && triple), n)
  }

  // ----- tokens -----

  predicate StringStart(s: string)
    requires s != ""
  {
    Quote(s[0]) || ((s[0] == 'r' || s[0] == 'R') && Quote(CharAt(s, 1)))
  }

  predicate IdentStart(cc: CharClass, s: string)
    requires s != ""
  {
    if s[0] == '$' then cc.idStart(CharAt(s, 1)) else cc.idStart(s[0])
  }

  /** What an identifier with an emoji goes on with. */
  function FakeIdent(cc: CharClass): char -> bool
  {
    c => cc.idContinue(c) || cc.Emoji(c) || c as int == 0x200D
  }

  predicate NotNewline(c: char) { c != '\n' }

  /** The kind of the first token of `s`, and how many characters it covers. */
  ghost function TokenSpec(cc: CharClass, s: string): (r: (TokenKind, nat))
    requires s != ""
    ensures 1 <= r.1 <= |s|
    ensures r.0.Literal? ==> r.0.suffixStart <= Bytes(s[..r.1])
  {
    var c := s[0];
    if c == '#' then (LineComment, Skip(s, 1, NotNewline))
    else if IsWhitespace(c) then (Whitespace, 1)
    else if StringStart(s) then
      var (kind, n) := StringSpec(s, if Quote(c) then 1 else 2);
      (Literal(kind, Bytes(s[..n])), n)
    else if IdentStart(cc, s) then
      var n := Skip(s, 1, cc.idContinue);
      if n < |s| && cc.Emoji(s[n]) then (InvalidIdent, Skip(s, n, FakeIdent(cc))) else (Ident, n)
    else if Decimal(c) then
      var (kind, n) := NumberSpec(cc, s);
      BytesPrefix(s, n, SuffixEnd(cc, s, n));
      (Literal(kind, Bytes(s[..n])), SuffixEnd(cc, s, n))
    else SymbolSpec(cc, s)
  }

  /** Spaces, operators, line continuations and characters the language has no use for. */
  ghost function SymbolSpec(cc: CharClass, s: string): (r: (TokenKind, nat))
    requires s != ""
    ensures 1 <= r.1 <= |s| && !r.0.Literal?
  {
    var c := s[0];
    if c == '\t' then (Tab, 1)
    else if c == ' ' then (Space, 1)
    else if c == '\n' then (Newline, 1)
    else if op :| Longest(s, op) then (Operator(op), |Spelling(op)|)
    else if c == '\\' then
      if CharAt(s, 1) == '\n' then (LineContinue, 2)
      else if CharAt(s, 1) == EOF_CHAR then (LineContinue, 1)
      else (InvalidLineContinue, 1)
    else if cc.Emoji(c) then (InvalidIdent, Skip(s, 1, FakeIdent(cc)))
    else (Unknown, 1)
  }

  lemma SymbolSpecOperator(cc: CharClass, s: string, op: Op)
    requires Longest(s, op)
    ensures SymbolSpec(cc, s) == (Operator(op), |Spelling(op)|)
  {
    hide Spelling, StartsOperator;
    OperatorFirst(op);
    BlanksAreNoOperators();
    assert StartsOperator(s[0]);
    forall other | Longest(s, other) ensures other == op { LongestUnique(s, other, op); }
  }

  lemma NoOperator(s: string)
    requires s != "" && !StartsOperator(s[0])
    ensures forall op :: !Longest(s, op)
  {
    forall op | Longest(s, op) ensures false { OperatorFirst(op); }
  }

  lemma BytesPrefix(s: string, n: nat, m: nat)
    requires n <= m <= |s|
    ensures Bytes(s[..n]) <= Bytes(s[..m])
  {
    BytesSplit(s[..m], n);
    assert s[..m][..n] == s[..n];
  }

  /** All tokens of a text. */
  ghost function Tokens(cc: CharClass, s: string): seq<Token>
    decreases |s|
  {
    if s == "" then []
    else
      var (kind, n) := TokenSpec(cc, s);
      [Token(kind, Bytes(s[..n]))] + Tokens(cc, s[n..])
  }

  function TotalLength(tokens: seq<Token>): nat
  {
    if tokens == [] then 0 else tokens[0].len + TotalLength(tokens[1..])
  }

  /** The tokens cut the text into pieces that are never empty. */
  lemma {:induction false} TokensPartition(cc: CharClass, s: string)
    ensures var tokens := Tokens(cc, s);
      && TotalLength(tokens) == Bytes(s)
      && (forall t | t in tokens :: t.len >= 1 && (t.kind.Literal? ==> t.kind.suffixStart <= t.len))
    decreases |s|
  {
    hide TokenSpec;
    if s != "" {
      var n := TokenSpec(cc, s).1;
      BytesSplit(s, n);
      TokensPartition(cc, s[n..]);
    }
  }
}
