/**
 * The text conventions the roster engine relies on: Rust's decimal
 * formatting of an `i32` (`to_string`, `format!("{}")`), `str::parse::<i32>`,
 * the last word of `split(' ')`, `String`'s ordering and `join`.
 */
module Strings {
  import opened Wrappers

  const I32Min: int := -0x8000_0000
  const I32Max: int := 0x7fff_ffff

  predicate IsDigit(c: char) {
    '0' <= c <= '9'
  }

  predicate AllDigits(s: string) {
    forall i :: 0 <= i < |s| ==> IsDigit(s[i])
  }

  function DigitChar(d: nat): (c: char)
    requires d < 10
    ensures IsDigit(c) && c as int - '0' as int == d
  {
    (d + '0' as int) as char
  }

  /** Decimal digits of `n`, most significant first, without leading zeros. */
  function NatToString(n: nat): (s: string)
    ensures 1 <= |s| && AllDigits(s)
    decreases n
  {
    if n < 10 then [DigitChar(n)] else NatToString(n / 10) + [DigitChar(n % 10)]
  }

  /** Rust's `Display` for integers: an optional '-' and the decimal digits. */
  function IntToString(n: int): string {
    if n < 0 then "-" + NatToString(-n) else NatToString(n)
  }

  /** The value of a string of decimal digits (0 for the empty string). */
  function DigitsValue(s: string): nat
    requires AllDigits(s)
  {
    if s == [] then 0 else DigitsValue(s[..|s| - 1]) * 10 + (s[|s| - 1] as int - '0' as int)
  }

  /**
   * `s.parse::<i32>()`: an optional '+' or '-', then at least one decimal
   * digit and nothing else, and the value must fit in 32 bits.
   */
  function ParseI32(s: string): Option<int> {
    var negative := |s| > 0 && s[0] == '-';
    var digits := if |s| > 0 && (s[0] == '-' || s[0] == '+') then s[1..] else s;
    if digits == [] || !AllDigits(digits) then None
    else
      var v: int := if negative then -(DigitsValue(digits) as int) else DigitsValue(digits);
      if I32Min <= v <= I32Max then Some(v) else None
  }

  lemma {:induction false} DigitsValueOfNatToString(n: nat)
    ensures DigitsValue(NatToString(n)) == n
    decreases n
  {
    if n >= 10 {
      var s := NatToString(n);
      assert s[..|s| - 1] == NatToString(n / 10);
      DigitsValueOfNatToString(n / 10);
    }
  }

  /** Formatting an `i32` and parsing it back gives the same number. */
  lemma ParseIntToString(n: int)
    requires I32Min <= n <= I32Max
    ensures ParseI32(IntToString(n)) == Some(n)
  {
    var s := IntToString(n);
    if n < 0 {
      var d := NatToString(-n);
      DigitsValueOfNatToString(-n);
      assert s == "-" + d && s[0] == '-' && s[1..] == d;
      assert IsDigit(d[0]);
    } else {
      DigitsValueOfNatToString(n);
      assert IsDigit(s[0]);
    }
  }

  /** Every integer formats to a string with no space and no newline in it. */
  lemma IntToStringHasNoWhitespace(n: int)
    ensures ' ' !in IntToString(n) && '\n' !in IntToString(n)
  {
    var s := IntToString(n);
    forall i | 0 <= i < |s|
      ensures s[i] != ' ' && s[i] != '\n'
    {
      if n < 0 && i > 0 {
        assert s[i] == NatToString(-n)[i - 1];
      }
    }
  }

  /** The text after the last space: `s.split(' ').last()`. */
  function LastWord(s: string): (w: string)
    ensures |w| <= |s| && w == s[|s| - |w|..]
    ensures ' ' !in w
    ensures |w| < |s| ==> s[|s| - |w| - 1] == ' '
  {
    if s == [] || s[|s| - 1] == ' ' then [] else LastWord(s[..|s| - 1]) + [s[|s| - 1]]
  }

  lemma {:induction false} LastWordAfterSpace(p: string, w: string)
    requires ' ' !in w
    ensures LastWord(p + " " + w) == w
    decreases |w|
  {
    if w == [] {
      assert (p + " " + w)[|p + " " + w| - 1] == ' ';
    } else {
      var s := p + " " + w;
      assert s[..|s| - 1] == p + " " + w[..|w| - 1];
      assert w[|w| - 1] in w;
      LastWordAfterSpace(p, w[..|w| - 1]);
    }
  }

  /** The name `"<name> <n>"` that the engine gives to the n-th instance of a template. */
  function Numbered(name: string, n: int): string {
    name + " " + IntToString(n)
  }

  /** The ordinal of a numbered name is read back from its last word. */
  lemma NumberedOrdinal(name: string, n: int)
    requires I32Min <= n <= I32Max
    ensures ParseI32(LastWord(Numbered(name, n))) == Some(n)
  {
    IntToStringHasNoWhitespace(n);
    LastWordAfterSpace(name, IntToString(n));
    ParseIntToString(n);
  }

  /** `String`'s `Ord`: lexicographic on characters (the same as on UTF-8 bytes). */
  predicate LexLe(a: string, b: string) {
    a == [] || (b != [] && (a[0] < b[0] || (a[0] == b[0] && LexLe(a[1..], b[1..]))))
  }

  lemma {:induction false} LexLeTotal(a: string, b: string)
    ensures LexLe(a, b) || LexLe(b, a)
    decreases |a|
  {
    if a != [] && b != [] && a[0] == b[0] {
      LexLeTotal(a[1..], b[1..]);
    }
  }

  lemma {:induction false} LexLeTransitive(a: string, b: string, c: string)
    requires LexLe(a, b) && LexLe(b, c)
    ensures LexLe(a, c)
    decreases |a|
  {
    if a != [] && b != [] && c != [] && a[0] == b[0] && b[0] == c[0] {
      LexLeTransitive(a[1..], b[1..], c[1..]);
    }
  }

  /** Two strings that agree up to a character compare as that character does. */
  lemma {:induction false} LexLeAfterCommonPrefix(p: string, a: string, b: string)
    requires a != [] && b != [] && a[0] < b[0]
    ensures LexLe(p + a, p + b) && !LexLe(p + b, p + a)
    decreases |p|
  {
    if p != [] {
      assert (p + a)[1..] == p[1..] + a;
      assert (p + b)[1..] == p[1..] + b;
      LexLeAfterCommonPrefix(p[1..], a, b);
    }
  }

  /** `parts.join(sep)`. */
  function Join(parts: seq<string>, sep: string): string {
    if parts == [] then ""
    else if |parts| == 1 then parts[0]
    else Join(parts[..|parts| - 1], sep) + sep + parts[|parts| - 1]
  }

  /** ASCII lower-casing; the engine applies it only to the six ability labels. */
  function ToLower(s: string): (r: string)
    ensures |r| == |s|
  {
    if s == [] then ""
    else [if 'A' <= s[0] <= 'Z' then (s[0] as int + 32) as char else s[0]] + ToLower(s[1..])
  }
}
