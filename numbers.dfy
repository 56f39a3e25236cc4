/** Decimal text of unsigned integers: `format!("{}", n)` and
    `str::parse::<u64>()`. */
module Numbers {
  import opened Wrappers

  const U64_LIMIT: nat := 0x1_0000_0000_0000_0000

  predicate IsDigit(c: char) {
    '0' <= c <= '9'
  }

  function DigitValue(c: char): nat
    requires IsDigit(c)
  {
    (c as int) - ('0' as int)
  }

  function DigitChar(d: nat): (c: char)
    requires d < 10
    ensures IsDigit(c) && DigitValue(c) == d
  {
    ('0' as int + d) as char
  }

  /** The decimal digits of `n`, with no leading zeros. */
  function NatToString(n: nat): string {
    if n < 10 then [DigitChar(n)] else NatToString(n / 10) + [DigitChar(n % 10)]
  }

  predicate AllDigits(s: string) {
    forall i :: 0 <= i < |s| ==> IsDigit(s[i])
  }

  /** The value of a nonempty string of decimal digits. */
  function DigitsValue(s: string): nat
    requires AllDigits(s)
  {
    if |s| == 0 then 0 else DigitsValue(s[..|s| - 1]) * 10 + DigitValue(s[|s| - 1])
  }

  /** `s.parse::<u64>()`: an optional '+' then one or more decimal digits,
      whose value must fit 64 bits. */
  function ParseU64(s: string): Option<nat> {
    var digits := if |s| > 0 && s[0] == '+' then s[1..] else s;
    if |digits| == 0 || !AllDigits(digits) then None
    else
      var v := DigitsValue(digits);
      if v < U64_LIMIT then Some(v) else None
  }

  lemma {:induction false} NatToStringDigits(n: nat)
    ensures |NatToString(n)| > 0
    ensures forall i :: 0 <= i < |NatToString(n)| ==> IsDigit(NatToString(n)[i])
    ensures DigitsValue(NatToString(n)) == n
  {
    if n >= 10 {
      NatToStringDigits(n / 10);
      var s := NatToString(n);
      assert s[..|s| - 1] == NatToString(n / 10);
    }
  }

  /** Formatting a 64-bit value and parsing it back gives the value. */
  lemma ParseFormatted(n: nat)
    requires n < U64_LIMIT
    ensures ParseU64(NatToString(n)) == Some(n)
  {
    NatToStringDigits(n);
  }
}
