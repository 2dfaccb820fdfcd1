/** Decimal numbers as the standard library prints and parses them: base 10, 64 bits. */
module Decimal {
  import opened Wrappers

  const MAX_INT64 := 0x7fff_ffff_ffff_ffff
  const MIN_INT64 := -0x8000_0000_0000_0000

  predicate IsDigit(c: char) { '0' <= c <= '9' }

  predicate AllDigits(s: string) { s != "" && forall i | 0 <= i < |s| :: IsDigit(s[i]) }

  function Value(s: string): (n: nat)
    requires forall i | 0 <= i < |s| :: IsDigit(s[i])
  {
    if s == "" then 0 else Value(s[..|s| - 1]) * 10 + ValueOf(s[|s| - 1])
  }

  function ValueOf(c: char): nat
    requires IsDigit(c)
  {
    c as int - '0' as int
  }

  function DigitOf(d: int): char
    requires 0 <= d < 10
  {
    ('0' as int + d) as char
  }

  function Digits(n: nat): string {
    if n < 10 then [DigitOf(n)] else Digits(n / 10) + [DigitOf(n % 10)]
  }

  lemma {:induction false} DigitsAreRight(n: nat)
    ensures AllDigits(Digits(n)) && Value(Digits(n)) == n
  {
    if n < 10 {
      assert [DigitOf(n)][..0] == "";
    } else {
      DigitsAreRight(n / 10);
      assert Digits(n)[..|Digits(n)| - 1] == Digits(n / 10);
    }
  }

  /** One more digit is ten times the number and the digit. */
  lemma DigitsAreDecimal(n: nat, d: nat)
    requires d < 10
    ensures Digits(10 * n + d) == (if n == 0 then "" else Digits(n)) + ["0123456789"[d]]
  {
    assert (10 * n + d) / 10 == n && (10 * n + d) % 10 == d;
  }

  /** strconv.FormatInt. */
  function FormatInt(n: int): string { if n < 0 then "-" + Digits(-n) else Digits(n) }

  function Unsigned(s: string): Option<int> { if AllDigits(s) then Some(Value(s)) else None }

  /** strconv.ParseInt(s, 10, 64): an optional sign and digits, in range. */
  function ParseInt(s: string): Option<int> {
    if s == "" then None
    else if s[0] == '-' then
      var u := Unsigned(s[1..]);
      if u.Some? && MIN_INT64 <= -u.value then Some(-u.value) else None
    else
      var u := Unsigned(if s[0] == '+' then s[1..] else s);
      if u.Some? && u.value <= MAX_INT64 then Some(u.value) else None
  }

  /** Nothing parses but digits with a sign or none in front. */
  lemma OnlyDigitsParse(s: string, i: nat)
    requires ParseInt(s).Some? && i < |s|
    ensures s[i] in "0123456789" || (i == 0 && |s| > 1 && (s[0] == '-' || s[0] == '+'))
  {
    var digits := if s[0] == '-' || s[0] == '+' then s[1..] else s;
    assert AllDigits(digits);
    if i > 0 { assert s[1..][i - 1] == s[i]; }
    if IsDigit(s[i]) { assert "0123456789"[ValueOf(s[i])] == s[i]; }
  }

  /** A number of 64 bits parses to itself, and a larger or smaller one does not parse. */
  lemma FormatParses(n: int)
    ensures ParseInt(FormatInt(n)) ==
            if -9_223_372_036_854_775_808 <= n <= 9_223_372_036_854_775_807 then Some(n) else None
  {
    var digits := Digits(if n < 0 then -n else n);
    DigitsAreRight(if n < 0 then -n else n);
    if n < 0 { assert ("-" + digits)[1..] == digits; } else { assert IsDigit(digits[0]); }
  }
}
