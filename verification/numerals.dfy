/** Digit strings in bases 2 to 16, as the C library reads them.

  For a string that starts with its digits, `strtoull(s, &end, 16)` and
  `atoi(s)` both read the longest run of digits at the front of `s`; `LeadingValue` is the number that run denotes, and
  `Format` is the inverse used to state round trips.
 */
module Numerals {

  /** The radixes the model uses: 10 for `atoi`, 16 for `strtoull(…, 16)`. */
  type Base = b: int | 2 <= b <= 16 witness 10

  /** Value of a digit character in either letter case, or -1 for any other character. */
  function DigitValue(c: char): (v: int)
    ensures -1 <= v < 16
    ensures v == -1 <==> !('0' <= c <= '9' || 'a' <= c <= 'f' || 'A' <= c <= 'F')
  {
    if '0' <= c <= '9' then c as int - '0' as int
    else if 'a' <= c <= 'f' then c as int - 'a' as int + 10
    else if 'A' <= c <= 'F' then c as int - 'A' as int + 10
    else -1
  }

  predicate IsDigit(c: char, base: Base) {
    0 <= DigitValue(c) < base
  }

  predicate AllDigits(s: string, base: Base) {
    forall i :: 0 <= i < |s| ==> IsDigit(s[i], base)
  }

  /** The lower-case digit character for `d`. */
  function DigitChar(d: nat): (c: char)
    requires d < 16
    ensures DigitValue(c) == d
  {
    if d < 10 then ('0' as int + d) as char else ('a' as int + d - 10) as char
  }

  /** Length of the longest prefix of `s` made only of digits of `base`. */
  function DigitRun(s: string, base: Base): (n: nat)
    ensures n <= |s|
    ensures AllDigits(s[..n], base)
    ensures n < |s| ==> !IsDigit(s[n], base)
  {
    if |s| == 0 || !IsDigit(s[0], base) then 0
    else
      var k := DigitRun(s[1..], base);
      assert s[..k + 1] == [s[0]] + s[1..][..k];
      1 + k
  }

  /** The number a digit string denotes, most significant digit first. */
  function Value(s: string, base: Base): nat
    requires AllDigits(s, base)
  {
    if |s| == 0 then 0
    else Value(s[..|s| - 1], base) * base + DigitValue(s[|s| - 1])
  }

  /** The number `strtoull` or `atoi` reads at the front of `s`: the value
      of its leading digit run, and 0 when there is none. */
  function LeadingValue(s: string, base: Base): nat {
    Value(s[..DigitRun(s, base)], base)
  }

  /** The largest `unsigned long long`. `uintptr_t` is taken to be 64 bits wide as well,
      so storing a `strtoull` result in it loses nothing. */
  const U64Max: nat := 0xFFFF_FFFF_FFFF_FFFF

  type U64 = x: nat | x <= U64Max

  /** `strtoull(s, &end, 16)` for a string that starts with its digits: the
      leading hexadecimal value, saturated at `U64Max` on overflow. */
  function StrToULL16(s: string): U64 {
    Saturate(LeadingValue(s, 16))
  }

  /** Clamps a value into `unsigned long long`, as `strtoull` does on overflow. */
  function Saturate(v: nat): U64 {
    if v <= U64Max then v else U64Max
  }

  /** The shortest digit string for `n`, in lower case. */
  function Format(n: nat, base: Base): (s: string)
    ensures |s| > 0 && AllDigits(s, base)
    ensures Value(s, base) == n
    ensures s[0] == '0' ==> n == 0
  {
    if n < base then [DigitChar(n)]
    else
      DivMod(n, base);
      var prefix := Format(n / base, base);
      var d := DigitChar(n % base);
      var s := prefix + [d];
      assert s[..|s| - 1] == prefix;
      assert Value(s, base) == Value(prefix, base) * base + DigitValue(d);
      s
  }

  /** A digit run is exactly the prefix of digits that stops at a non-digit or at the end. */
  lemma DigitRunIs(s: string, base: Base, k: nat)
    requires k <= |s| && AllDigits(s[..k], base)
    requires k == |s| || !IsDigit(s[k], base)
    ensures DigitRun(s, base) == k
  {
  }

  lemma DivMod(n: nat, base: Base)
    ensures n / base < n || n == 0
    ensures (n / base) * base + n % base == n
  {
  }

  /** Zeros in front of a digit string do not change its value. */
  lemma {:induction false} LeadingZeroValue(s: string, base: Base)
    requires AllDigits(s, base)
    ensures AllDigits("0" + s, base)
    ensures Value("0" + s, base) == Value(s, base)
    decreases |s|
  {
    var t := "0" + s;
    if |s| > 0 {
      assert t[..|t| - 1] == "0" + s[..|s| - 1];
      LeadingZeroValue(s[..|s| - 1], base);
    }
  }

  /** A digit string followed by anything that is not a digit is read
      back in full, and the reading stops right after it. */
  lemma {:induction false} LeadingValueOfDigits(digits: string, base: Base, rest: string)
    requires AllDigits(digits, base)
    requires |rest| == 0 || !IsDigit(rest[0], base)
    ensures DigitRun(digits + rest, base) == |digits|
    ensures LeadingValue(digits + rest, base) == Value(digits, base)
  {
    var s := digits + rest;
    assert s[..|digits|] == digits;
    DigitRunIs(s, base, |digits|);
  }

  /** Reading back a formatted number, followed by anything that is not a
      digit, yields the number. */
  lemma {:induction false} LeadingValueOfFormat(n: nat, base: Base, rest: string)
    requires |rest| == 0 || !IsDigit(rest[0], base)
    ensures DigitRun(Format(n, base) + rest, base) == |Format(n, base)|
    ensures LeadingValue(Format(n, base) + rest, base) == n
  {
    LeadingValueOfDigits(Format(n, base), base, rest);
  }
}
