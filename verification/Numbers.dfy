/** Decimal numerals, as Rust prints integers, and the binary suffixes of number literals,
    kclvm/ast/src/ast.rs:1033-1085. */
module Numbers {
  import opened Wrappers

  predicate IsDigit(c: char) { '0' <= c <= '9' }

  function Digit(d: nat): char
    requires d < 10
  {
    "0123456789"[d]
  }

  function DigitValue(c: char): nat
    requires IsDigit(c)
  {
    c as nat - '0' as nat
  }

  lemma DigitRoundTrip(d: nat)
    requires d < 10
    ensures IsDigit(Digit(d)) && DigitValue(Digit(d)) == d
  {
  }

  /** The numeral of `n`: no leading zero, except for 0 itself. */
  function Numeral(n: nat): (s: string)
    ensures s != "" && forall i | 0 <= i < |s| :: IsDigit(s[i])
    ensures s[0] == '0' ==> n == 0 && s == "0"
  {
    if n < 10 then [Digit(n)] else Numeral(n / 10) + [Digit(n % 10)]
  }

  function Value(s: string): nat
    requires forall i | 0 <= i < |s| :: IsDigit(s[i])
  {
    if s == "" then 0 else Value(s[..|s| - 1]) * 10 + DigitValue(s[|s| - 1])
  }

  lemma {:induction false} NumeralValue(n: nat)
    ensures Value(Numeral(n)) == n
  {
    if n < 10 {
      DigitRoundTrip(n);
      assert Value([Digit(n)][..0]) == 0;
    } else {
      NumeralValue(n / 10);
      DigitRoundTrip(n % 10);
      assert Numeral(n)[..|Numeral(n)| - 1] == Numeral(n / 10);
    }
  }

  datatype Suffix = Sn | Su | Sm | Sk | SK | SM | SG | ST | SP | SKi | SMi | SGi | STi | SPi {
    function Text(): string
    {
      match this
      case Sn => "n" case Su => "u" case Sm => "m" case Sk => "k"
      case SK => "K" case SM => "M" case SG => "G" case ST => "T" case SP => "P"
      case SKi => "Ki" case SMi => "Mi" case SGi => "Gi" case STi => "Ti" case SPi => "Pi"
    }
  }

  function SuffixText(suffix: Option<Suffix>): string
  {
    match suffix case Some(s) => s.Text() case None => ""
  }

  /** Suffixes are made of letters that start neither a base prefix nor an exponent. */
  lemma SuffixShape(suffix: Suffix)
    ensures var t := suffix.Text();
      && t != "" && (forall k | 0 <= k < |t| :: 'A' <= t[k] <= 'Z' || 'a' <= t[k] <= 'z')
      && t[0] != 'b' && t[0] != 'o' && t[0] != 'x' && t[0] != 'e' && t[0] != 'E'
  {
  }
  /** `NumberBinarySuffix::try_from`. */
  function SuffixNamed(text: string): Option<Suffix>
  {
    if |text| == 1 then
      match text[0]
      case 'n' => Some(Sn) case 'u' => Some(Su) case 'm' => Some(Sm) case 'k' => Some(Sk)
      case 'K' => Some(SK) case 'M' => Some(SM) case 'G' => Some(SG) case 'T' => Some(ST) case 'P' => Some(SP)
      case _ => None
    else if |text| == 2 && text[1] == 'i' then
      match text[0]
      case 'K' => Some(SKi) case 'M' => Some(SMi) case 'G' => Some(SGi) case 'T' => Some(STi) case 'P' => Some(SPi)
      case _ => None
    else None
  }

  /** A printed suffix is read as the same suffix. */
  lemma SuffixRoundTrip(suffix: Suffix)
    ensures SuffixNamed(suffix.Text()) == Some(suffix)
  {
  }
}
