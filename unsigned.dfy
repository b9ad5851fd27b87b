/** Rust's unsigned integer widths, and their decimal text: `Display` (which
    prints without leading zeros) and `FromStr` (`str::parse::<uN>`). */
module Unsigned {
  import opened Wrappers

  const U16_LIMIT: nat := 0x1_0000
  const U32_LIMIT: nat := 0x1_0000_0000
  const U64_LIMIT: nat := 0x1_0000_0000_0000_0000

  type u16 = x: int | 0 <= x < 0x1_0000
  type u32 = x: int | 0 <= x < 0x1_0000_0000
  type u64 = x: int | 0 <= x < 0x1_0000_0000_0000_0000

  predicate IsDigit(c: char) {
    '0' <= c <= '9'
  }

  predicate AllDigits(s: string) {
    forall i :: 0 <= i < |s| ==> IsDigit(s[i])
  }

  function DigitValue(c: char): nat
    requires IsDigit(c)
  {
    c as int - '0' as int
  }

  function DigitChar(d: nat): (c: char)
    requires d < 10
    ensures IsDigit(c) && DigitValue(c) == d
  {
    ('0' as int + d) as char
  }

  /** The number a string of decimal digits denotes; leading zeros are allowed. */
  function Value(s: string): nat
    requires AllDigits(s)
  {
    if s == [] then 0 else Value(s[..|s| - 1]) * 10 + DigitValue(s[|s| - 1])
  }

  /** `n.to_string()`: the digits of `n`, most significant first, with no
      leading zero. */
  function Format(n: nat): (s: string)
    ensures |s| > 0 && AllDigits(s) && Value(s) == n
    ensures |s| > 1 ==> s[0] != '0'
    decreases n
  {
    if n < 10 then [DigitChar(n)]
    else
      var s := Format(n / 10) + [DigitChar(n % 10)];
      assert s[..|s| - 1] == Format(n / 10);
      s
  }

  /** Different numbers are printed differently. */
  lemma FormatInjective(a: nat, b: nat)
    ensures Format(a) == Format(b) ==> a == b
  {
  }

  /** The digits `from_str` reads: an optional leading '+' is skipped. */
  function Unsigned(s: string): string {
    if |s| > 0 && s[0] == '+' then s[1..] else s
  }

  /** `s.parse::<uN>()` where `limit` is 2^N: an optional '+', then one or
      more ASCII digits whose value is below `limit`; anything else (the empty
      string, a '-' sign, blanks, an overflow) fails. */
  function Parse(s: string, limit: nat): (r: Option<nat>)
    ensures r.Some? ==> r.value < limit
    ensures r.Some? <==> Unsigned(s) != [] && AllDigits(Unsigned(s)) && Value(Unsigned(s)) < limit
    ensures r.Some? ==> r.value == Value(Unsigned(s))
  {
    var d := Unsigned(s);
    if d != [] && AllDigits(d) && Value(d) < limit then Some(Value(d)) else None
  }

  /** Printing a number below the limit and parsing it back gives it back. */
  lemma ParseFormat(n: nat, limit: nat)
    requires n < limit
    ensures Parse(Format(n), limit) == Some(n)
  {
  }

  /** A leading '-' is never accepted by an unsigned parse, nor is the
      empty string. */
  lemma ParseRejectsSignAndEmpty(t: string, limit: nat)
    ensures Parse("-" + t, limit) == None
    ensures Parse("", limit) == None
  {
    assert ("-" + t)[0] == '-';
  }

  function ParseU16(s: string): (r: Option<u16>)
    ensures r.Some? <==> Parse(s, U16_LIMIT).Some?
    ensures r.Some? ==> r.value == Parse(s, U16_LIMIT).value
  {
    match Parse(s, U16_LIMIT)
    case Some(n) => Some(n as u16)
    case None => None
  }

  function ParseU32(s: string): (r: Option<u32>)
    ensures r.Some? <==> Parse(s, U32_LIMIT).Some?
    ensures r.Some? ==> r.value == Parse(s, U32_LIMIT).value
  {
    match Parse(s, U32_LIMIT)
    case Some(n) => Some(n as u32)
    case None => None
  }

  function ParseU64(s: string): (r: Option<u64>)
    ensures r.Some? <==> Parse(s, U64_LIMIT).Some?
    ensures r.Some? ==> r.value == Parse(s, U64_LIMIT).value
  {
    match Parse(s, U64_LIMIT)
    case Some(n) => Some(n as u64)
    case None => None
  }
}
