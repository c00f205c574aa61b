/**
 * How the tool's string streams write unsigned numbers: std::dec and std::hex
 * (no leading zeros, a single "0" for zero), std::uppercase choosing A-F over
 * a-f, and std::setw(2) with std::setfill('0') for one zero-padded byte.
 *
 * The reading half (ValueOf, ReadNumber, Field) is not part of the tool; it is
 * the reference the rendering is checked against: every rendered number reads
 * back as the number that was written.
 */
module Numerals {
  import opened Options

  /** The two bases the streams are switched between. */
  predicate IsBase(base: nat) {
    base == 10 || base == 16
  }

  /** The character written for digit d. */
  function DigitChar(d: nat, upper: bool): char
    requires d < 16
  {
    if d < 10 then ('0' as int + d) as char
    else if upper then ('A' as int + d - 10) as char
    else ('a' as int + d - 10) as char
  }

  /** The value of a digit character in the given base (either letter case); None for any other character. */
  function DigitValue(c: char, base: nat): (r: Option<nat>)
    requires IsBase(base)
    ensures r.Some? ==> r.value < base
  {
    if '0' <= c <= '9' then Some(c as int - '0' as int)
    else if base == 16 && 'a' <= c <= 'f' then Some(c as int - 'a' as int + 10)
    else if base == 16 && 'A' <= c <= 'F' then Some(c as int - 'A' as int + 10)
    else None
  }

  predicate IsDigit(c: char, base: nat)
    requires IsBase(base)
  {
    DigitValue(c, base).Some?
  }

  /** c is not a letter of the other case than the one selected. */
  predicate InCase(c: char, upper: bool) {
    if upper then !('a' <= c <= 'f') else !('A' <= c <= 'F')
  }

  /**
   * n written in the given base: digits only, of the selected case, and no
   * leading zero unless n is zero itself.
   */
  function Digits(n: nat, base: nat, upper: bool): (s: string)
    requires IsBase(base)
    ensures 1 <= |s|
    ensures forall i :: 0 <= i < |s| ==> IsDigit(s[i], base) && InCase(s[i], upper)
    ensures s[0] == '0' <==> n == 0
    decreases n
  {
    if n < base then [DigitChar(n, upper)]
    else Digits(n / base, base, upper) + [DigitChar(n % base, upper)]
  }

  /** `os << std::dec << n` */
  function Dec(n: nat): string {
    Digits(n, 10, false)
  }

  /** `os << std::hex << n`, with std::uppercase set or not */
  function HexDigits(n: nat, upper: bool): string {
    Digits(n, 16, upper)
  }

  /** `os << std::hex << std::setw(2) << std::setfill('0') << b` */
  function Hex2(b: nat, upper: bool): string
    requires b < 256
  {
    [DigitChar(b / 16, upper), DigitChar(b % 16, upper)]
  }

  /** The padded form is the plain hex form with one '0' in front of a single digit. */
  lemma Hex2Padded(b: nat, upper: bool)
    requires b < 256
    ensures Hex2(b, upper) == (if b < 16 then "0" else "") + HexDigits(b, upper)
  {
    if b >= 16 {
      assert HexDigits(b / 16, upper) == [DigitChar(b / 16, upper)];
    }
  }

  /** The number a string of digits stands for, most significant digit first. */
  function ValueOf(s: string, base: nat): nat
    requires IsBase(base)
    requires forall i :: 0 <= i < |s| ==> IsDigit(s[i], base)
  {
    if s == [] then 0
    else
      assert IsDigit(s[|s| - 1], base);
      ValueOf(s[..|s| - 1], base) * base + DigitValue(s[|s| - 1], base).value
  }

  /** Every digit reads back as its value. */
  lemma DigitCharValue(d: nat, base: nat, upper: bool)
    requires IsBase(base) && d < base
    ensures DigitValue(DigitChar(d, upper), base) == Some(d)
  {
  }

  /** Rendering then reading gives the number back. */
  lemma {:induction false} ValueOfDigits(n: nat, base: nat, upper: bool)
    requires IsBase(base)
    ensures ValueOf(Digits(n, base, upper), base) == n
    decreases n
  {
    var s := Digits(n, base, upper);
    if n >= base {
      var q, r := n / base, n % base;
      ValueOfDigits(q, base, upper);
      assert s == Digits(q, base, upper) + [DigitChar(r, upper)];
      assert s[..|s| - 1] == Digits(q, base, upper);
      DigitCharValue(r, base, upper);
      assert ValueOf(s, base) == q * base + r;
    } else {
      assert s[..0] == [];
      DigitCharValue(n, base, upper);
    }
  }

  /** Length of the longest prefix of s made of digits. */
  function DigitRun(s: string, base: nat): (k: nat)
    requires IsBase(base)
    ensures k <= |s|
    ensures forall i :: 0 <= i < k ==> IsDigit(s[i], base)
    ensures k < |s| ==> !IsDigit(s[k], base)
  {
    if s == [] || !IsDigit(s[0], base) then 0 else 1 + DigitRun(s[1..], base)
  }

  lemma {:induction false} DigitRunStops(d: string, rest: string, base: nat)
    requires IsBase(base)
    requires forall i :: 0 <= i < |d| ==> IsDigit(d[i], base)
    requires rest == [] || !IsDigit(rest[0], base)
    ensures DigitRun(d + rest, base) == |d|
  {
    if d != [] {
      assert (d + rest)[1..] == d[1..] + rest;
      DigitRunStops(d[1..], rest, base);
    } else {
      assert d + rest == rest;
    }
  }

  /** Reads a non-empty run of digits from the front of s: its value and what follows it. */
  function ReadNumber(s: string, base: nat): (r: Option<(nat, string)>)
    requires IsBase(base)
  {
    var k := DigitRun(s, base);
    if k == 0 then None else Some((ValueOf(s[..k], base), s[k..]))
  }

  /** Reads the text `prefix` and then a number. */
  function Field(prefix: string, s: string, base: nat): (r: Option<(nat, string)>)
    requires IsBase(base)
  {
    if prefix <= s then ReadNumber(s[|prefix|..], base) else None
  }

  /** A rendered number followed by a non-digit reads back as that number. */
  lemma FieldDigits(prefix: string, n: nat, base: nat, upper: bool, rest: string)
    requires IsBase(base)
    requires rest == [] || !IsDigit(rest[0], base)
    ensures Field(prefix, prefix + Digits(n, base, upper) + rest, base) == Some((n, rest))
  {
    var d := Digits(n, base, upper);
    var s := prefix + d + rest;
    assert s[|prefix|..] == d + rest;
    DigitRunStops(d, rest, base);
    assert (d + rest)[..|d|] == d;
    assert (d + rest)[|d|..] == rest;
    ValueOfDigits(n, base, upper);
  }
}
