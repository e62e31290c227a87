/**
 * The few java.lang.String / Character operations the core relies on.
 */
module Texto {

  import opened Erros

  /**
   * Character.toUpperCase on the characters that fold to an ASCII letter: 'a'..'z' and the
   * long s U+017F, whose upper case is 'S'; every other character is unchanged.
   */
  function ToUpper(c: char): (u: char)
    ensures 'a' <= c <= 'z' ==> u as int == c as int - 32
    ensures c == '\U{17F}' ==> u == 'S'
    ensures !('a' <= c <= 'z') && c != '\U{17F}' ==> u == c
  {
    if 'a' <= c <= 'z' then (c as int - 32) as char
    else if c == '\U{17F}' then 'S'
    else c
  }

  /** Character comparison of String.regionMatches(true, ...): equal, or equal once upper-cased. */
  predicate CharEqualsIgnoreCase(a: char, b: char)
  {
    a == b || ToUpper(a) == ToUpper(b)
  }

  /**
   * `a.equalsIgnoreCase(b)`: false when `b` is null, otherwise same length and
   * pairwise equal characters up to case.
   */
  predicate EqualsIgnoreCase(a: string, b: Option<string>)
  {
    b.Some? && |a| == |b.value| &&
    forall i | 0 <= i < |a| :: CharEqualsIgnoreCase(a[i], b.value[i])
  }

  /** The strings equal to "SP" ignoring case are exactly its six spellings (with either case
      of s, the long s, and either case of p); null is not one. */
  lemma EqualsIgnoreCaseSP(u: Option<string>)
    ensures EqualsIgnoreCase("SP", u) <==> u.Some? && u.value in {"SP", "Sp", "sP", "sp", "\U{17F}P", "\U{17F}p"}
  {
    if EqualsIgnoreCase("SP", u) {
      var s := u.value;
      assert CharEqualsIgnoreCase('S', s[0]) && CharEqualsIgnoreCase('P', s[1]);
      assert s[0] in {'S', 's', '\U{17F}'} && s[1] in {'P', 'p'};
      assert s == [s[0], s[1]];
    }
  }

  /** Character.isWhitespace: Unicode space, line and paragraph separators other than the
      no-break spaces, plus the ASCII controls U+0009..U+000D and U+001C..U+001F. */
  predicate IsWhitespace(c: char)
  {
    || c == ' ' || ('\t' <= c <= '\r') || ('\U{1C}' <= c <= '\U{1F}')
    || c == '\U{1680}' || ('\U{2000}' <= c <= '\U{2006}') || ('\U{2008}' <= c <= '\U{200A}')
    || c == '\U{2028}' || c == '\U{2029}' || c == '\U{205F}' || c == '\U{3000}'
  }

  /** String.isBlank: empty or made only of whitespace. */
  predicate IsBlank(s: string)
  {
    s == [] || (IsWhitespace(s[0]) && IsBlank(s[1..]))
  }

  /** isBlank holds exactly for the empty string and the strings made only of whitespace. */
  lemma {:induction false} IsBlankSoEspacos(s: string)
    ensures IsBlank(s) <==> forall i | 0 <= i < |s| :: IsWhitespace(s[i])
  {
    if s != [] {
      IsBlankSoEspacos(s[1..]);
      assert forall i | 1 <= i < |s| :: s[i] == s[1..][i - 1];
    }
  }

  function DigitChar(d: nat): (c: char)
    requires d < 10
    ensures '0' <= c <= '9' && c as int - '0' as int == d
  {
    ('0' as int + d) as char
  }

  /** The number a string of decimal digits denotes, most significant first. */
  function ValorDecimal(s: string): int
  {
    if s == [] then 0 else 10 * ValorDecimal(s[..|s| - 1]) + (s[|s| - 1] as int - '0' as int)
  }

  /** Decimal digits of a natural number, most significant first, no leading zero. */
  function NatToString(n: nat): (s: string)
    ensures |s| >= 1
    ensures forall i | 0 <= i < |s| :: '0' <= s[i] <= '9'
    ensures |s| > 1 ==> s[0] != '0'
    decreases n
  {
    if n < 10 then [DigitChar(n)]
    else
      var prefixo := NatToString(n / 10);
      assert (prefixo + [DigitChar(n % 10)])[0] == prefixo[0];
      prefixo + [DigitChar(n % 10)]
  }

  /** The digits denote the number. */
  lemma {:induction false} NatToStringValor(n: nat)
    ensures ValorDecimal(NatToString(n)) == n
    decreases n
  {
    var s := NatToString(n);
    if n < 10 {
      assert s[..|s| - 1] == [];
    } else {
      NatToStringValor(n / 10);
      assert s[..|s| - 1] == NatToString(n / 10);
    }
  }

  /** Integer.toString, as used by string concatenation with an int: the digits of |i|, after '-' when negative. */
  function IntToString(i: int): (s: string)
    ensures |s| >= 1 && (i < 0 <==> s[0] == '-')
  {
    if i < 0 then "-" + NatToString(-i) else NatToString(i)
  }

  /** The rendering denotes the number: its digits give i, or -i after the sign. */
  lemma IntToStringValor(i: int)
    ensures i >= 0 ==> ValorDecimal(IntToString(i)) == i
    ensures i < 0 ==> ValorDecimal(IntToString(i)[1..]) == -i
  {
    if i < 0 {
      NatToStringValor(-i);
      assert IntToString(i)[1..] == NatToString(-i);
    } else {
      NatToStringValor(i);
    }
  }

  /** Different numbers render differently. */
  lemma IntToStringInjetiva(i: int, j: int)
    ensures IntToString(i) == IntToString(j) ==> i == j
  {
    IntToStringValor(i);
    IntToStringValor(j);
  }

  lemma IntToStringExamples()
    ensures IntToString(18) == "18"
    ensures IntToString(0) == "0"
    ensures IntToString(-7) == "-7"
  {
  }
}
