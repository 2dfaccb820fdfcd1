/** Byte counts with a unit, as a manifest writes them. Texts are ASCII. */
module Sizes {
  import opened Wrappers
  import opened Decimal

  const K := 0x400
  const M := 0x10_0000
  const G := 0x4000_0000
  const LIMIT := 0x4000_0000_0000_0000   // 1 << 62

  /** Bytes.String: the largest unit that divides the count. */
  function Print(b: int): string {
    if b >= G && b % G == 0 then FormatInt(b / G) + "g"
    else if b >= M && b % M == 0 then FormatInt(b / M) + "m"
    else if b >= K && b % K == 0 then FormatInt(b / K) + "k"
    else FormatInt(b)
  }

  predicate IsSpace(c: char) { c == ' ' || '\t' <= c <= '\r' }

  function TrimLeft(s: string): string { if s != "" && IsSpace(s[0]) then TrimLeft(s[1..]) else s }

  function TrimRight(s: string): string { if s != "" && IsSpace(s[|s| - 1]) then TrimRight(s[..|s| - 1]) else s }

  function Lower(s: string): string {
    seq(|s|, i requires 0 <= i < |s| => if 'A' <= s[i] <= 'Z' then (s[i] as int + 32) as char else s[i])
  }

  /** n << shift in 64 bits. */
  function ShiftLeft(n: int, unit: int): int {
    var wide := n * unit - MIN_INT64;
    wide % 0x1_0000_0000_0000_0000 + MIN_INT64
  }

  /** The unit a text ends in, and the text without it. */
  function UnitOf(s: string): (int, string) {
    if s == "" then (1, s)
    else
      var (last, rest) := (s[|s| - 1], s[..|s| - 1]);
      if last == 'g' then (G, rest) else if last == 'm' then (M, rest) else if last == 'k' then (K, rest) else (1, s)
  }

  function Parse(text: string): Option<int> {
    var (unit, s) := UnitOf(Lower(TrimLeft(TrimRight(text))));
    var n := ParseInt(s);
    if n.None? || n.value < 0 || n.value > LIMIT / unit then None else Some(ShiftLeft(n.value, unit))
  }

  class Bytes {
    var value: int

    constructor ()
      ensures value == 0
    {
      value := 0;
    }

    method UnmarshalText(text: string) returns (failed: bool)
      modifies this
      ensures failed == Parse(text).None?
      ensures value == if failed then old(value) else Parse(text).value
    {
      var s := Lower(TrimLeft(TrimRight(text)));
      var unit := 1;
      if s != "" && s[|s| - 1] == 'g' {
        unit, s := G, s[..|s| - 1];
      } else if s != "" && s[|s| - 1] == 'm' {
        unit, s := M, s[..|s| - 1];
      } else if s != "" && s[|s| - 1] == 'k' {
        unit, s := K, s[..|s| - 1];
      }
      var n := ParseInt(s);
      if n.None? || n.value < 0 || n.value > LIMIT / unit { return true; }
      value := ShiftLeft(n.value, unit);
      failed := false;
    }
  }

  /** The guard keeps the shift from overflowing, and with it every size. */
  lemma ShiftFits(n: int, unit: int)
    requires unit == 1 || unit == K || unit == M || unit == G
    requires 0 <= n <= LIMIT / unit
    ensures ShiftLeft(n, unit) == n * unit && 0 <= n * unit <= LIMIT
  {}

  lemma AcceptedSizesFit(text: string)
    requires Parse(text).Some?
    ensures 0 <= Parse(text).value <= 4_611_686_018_427_387_904
    ensures var (unit, s) := UnitOf(Lower(TrimLeft(TrimRight(text)))); Parse(text).value == ParseInt(s).value * unit
  {
    var (unit, s) := UnitOf(Lower(TrimLeft(TrimRight(text))));
    ShiftFits(ParseInt(s).value, unit);
  }

  /** And nothing else is a size: every accepted text is such a number and unit, in blanks. */
  lemma AcceptedSizesAreWritten(text: string)
    returns (before: string, number: string, letter: string, unit: int, after: string)
    requires Parse(text).Some?
    ensures text == before + (number + letter) + after && Blank(before) && Blank(after) && Worth(letter, unit)
    ensures ParseInt(number).Some? && 0 <= ParseInt(number).value && Parse(text) == Some(ParseInt(number).value * unit)
  {
    after := RightBlanks(text);
    before := LeftBlanks(TrimRight(text));
    number, letter, unit := AcceptedCore(TrimLeft(TrimRight(text)));
    AcceptedSizesFit(text);
  }

  lemma AcceptedCore(core: string) returns (number: string, letter: string, unit: int)
    requires ParseInt(UnitOf(Lower(core)).1).Some?
    ensures core == number + letter && Worth(letter, unit) && UnitOf(Lower(core)) == (unit, number)
  {
    unit := UnitOf(Lower(core)).0;
    letter := if unit == 1 then "" else core[|core| - 1..];
    number := if unit == 1 then core else core[..|core| - 1];
    LowerCore(core, unit);
    SameNumber(core, number, UnitOf(Lower(core)).1);
  }

  lemma SameNumber(core: string, number: string, lower: string)
    requires ParseInt(lower).Some? && |lower| == |number| <= |core|
    requires number == core[..|number|] && lower == Lower(core)[..|lower|]
    ensures number == lower
  {
    forall i | 0 <= i < |number| ensures number[i] == lower[i] {
      OnlyDigitsParse(lower, i);
      assert lower[i] == Lower(core)[i] && number[i] == core[i];
    }
  }

  lemma LowerCore(core: string, unit: int)
    requires unit == UnitOf(Lower(core)).0
    ensures |Lower(core)| == |core|
    ensures unit != 1 ==> core != "" && Worth(core[|core| - 1..], unit)
    ensures unit != 1 ==> UnitOf(Lower(core)).1 == Lower(core)[..|core| - 1]
    ensures unit == 1 ==> UnitOf(Lower(core)).1 == Lower(core)
  {
    if core != "" {
      var (c, l) := (core[|core| - 1], Lower(core)[|core| - 1]);
      assert core[|core| - 1..] == [c];
      assert l == 'k' ==> c == 'k' || c == 'K';
      assert l == 'm' ==> c == 'm' || c == 'M';
      assert l == 'g' ==> c == 'g' || c == 'G';
    }
  }

  lemma {:induction false} RightBlanks(s: string) returns (blank: string)
    ensures s == TrimRight(s) + blank && Blank(blank)
  {
    blank := "";
    if s != "" && IsSpace(s[|s| - 1]) {
      var b := RightBlanks(s[..|s| - 1]);
      blank := b + [s[|s| - 1]];
      assert s == s[..|s| - 1] + [s[|s| - 1]];
    }
  }

  lemma {:induction false} LeftBlanks(s: string) returns (blank: string)
    ensures s == blank + TrimLeft(s) && Blank(blank)
  {
    blank := "";
    if s != "" && IsSpace(s[0]) {
      var b := LeftBlanks(s[1..]);
      blank := [s[0]] + b;
      assert s == [s[0]] + s[1..];
    }
  }

  /** A count is printed in the largest unit it is a multiple of. */
  lemma PrintedInUnits(n: int)
    requires n > 0
    ensures Print(n * 1_073_741_824) == FormatInt(n) + "g"
    ensures n % 1_024 != 0 ==> Print(n * 1_048_576) == FormatInt(n) + "m" && Print(n * 1_024) == FormatInt(n) + "k"
    ensures n % 1_024 != 0 ==> Print(n) == FormatInt(n)
  {
    if n % 1_024 != 0 {
      NotAMultiple(n, 1_048_576);
      NotAMultiple(n, 1_024);
      NotAMultiple(n, 1);
    }
  }

  lemma NotAMultiple(n: int, unit: int)
    requires n > 0 && n % 1_024 != 0 && (unit == 1 || unit == 1_024 || unit == 1_048_576)
    ensures n * unit % (unit * 1_024) != 0 && n * unit / unit == n
    ensures unit <= 1_024 ==> n * unit % 1_048_576 != 0 && n * unit % 1_073_741_824 != 0
  {
    if unit == 1 {
    } else if unit == 1_024 {
    } else {
    }
  }

  // ------------------------------------------------------------------ round trip

  predicate InNumber(c: char) { IsDigit(c) || c == '-' }

  lemma NumberChars(n: int)
    ensures FormatInt(n) != "" && forall i | 0 <= i < |FormatInt(n)| :: InNumber(FormatInt(n)[i])
  {
    DigitsAreRight(if n < 0 then -n else n);
  }

  predicate Plain(c: char) { InNumber(c) || c == 'g' || c == 'm' || c == 'k' }

  lemma NothingToTrim(s: string)
    requires s != "" && forall i | 0 <= i < |s| :: Plain(s[i])
    ensures Lower(TrimLeft(TrimRight(s))) == s
  {
    assert Plain(s[0]) && Plain(s[|s| - 1]);
    assert TrimLeft(TrimRight(s)) == s;
    assert Lower(s) == s;
  }

  predicate UnitFor(suffix: string, unit: int) {
    || (unit == G && suffix == "g") || (unit == M && suffix == "m") || (unit == K && suffix == "k")
        || (unit == 1 && suffix == "")
  }

  lemma UnitIsFound(number: string, suffix: string, unit: int)
    requires UnitFor(suffix, unit) && number != "" && forall i | 0 <= i < |number| :: InNumber(number[i])
    ensures UnitOf(Lower(TrimLeft(TrimRight(number + suffix)))) == (unit, number)
  {
    var s := number + suffix;
    forall i | 0 <= i < |s| ensures Plain(s[i]) {
      if i < |number| { assert InNumber(number[i]); }
    }
    NothingToTrim(s);
    if suffix == "" {
      assert s == number && InNumber(number[|number| - 1]);
    } else {
      assert s[|s| - 1] == suffix[0] && s[..|s| - 1] == number;
    }
  }

  lemma ParseWithUnit(n: int, unit: int, suffix: string)
    requires UnitFor(suffix, unit) && MIN_INT64 <= n <= MAX_INT64
    ensures Parse(FormatInt(n) + suffix) == if 0 <= n <= LIMIT / unit then Some(n * unit) else None
  {
    NumberChars(n);
    UnitIsFound(FormatInt(n), suffix, unit);
    FormatParses(n);
    if 0 <= n <= LIMIT / unit { ShiftFits(n, unit); }
  }

  /** What a unit is worth, its letter in either case. */
  predicate Worth(letter: string, unit: int) {
    || (letter == "" && unit == 1)
    || ((letter == "k" || letter == "K") && unit == 1_024)
    || ((letter == "m" || letter == "M") && unit == 1_048_576)
    || ((letter == "g" || letter == "G") && unit == 1_073_741_824)
  }

  predicate Blank(s: string) { forall i | 0 <= i < |s| :: s[i] == ' ' || '\t' <= s[i] <= '\r' }

  lemma {:induction false} TrimRightOfBlank(s: string, blank: string)
    requires s != "" && !IsSpace(s[|s| - 1]) && Blank(blank)
    ensures TrimRight(s + blank) == s
  {
    if blank == "" {
      assert s + blank == s;
    } else {
      var n := |blank| - 1;
      TrimRightOfBlank(s, blank[..n]);
      assert (s + blank)[..|s + blank| - 1] == s + blank[..n];
    }
  }

  lemma {:induction false} TrimLeftOfBlank(blank: string, s: string)
    requires s != "" && !IsSpace(s[0]) && Blank(blank)
    ensures TrimLeft(blank + s) == s
  {
    if blank == "" {
      assert blank + s == s;
    } else {
      TrimLeftOfBlank(blank[1..], s);
      assert (blank + s)[1..] == blank[1..] + s;
    }
  }

  lemma LowerOfLetter(number: string, letter: string, small: string)
    requires forall i | 0 <= i < |number| :: InNumber(number[i])
    requires (letter == small && UnitLetter(letter)) || (letter == "K" && small == "k")
        || (letter == "M" && small == "m")
      || (letter == "G" && small == "g")
    ensures Lower(number + letter) == number + small
  {
    var s := number + letter;
    forall i | 0 <= i < |number| ensures Lower(s)[i] == number[i] { assert s[i] == number[i] && InNumber(number[i]); }
    if letter != "" { assert s[|number|] == letter[0]; }
  }

  predicate UnitLetter(letter: string) { letter == "" || letter == "g" || letter == "m" || letter == "k" }

  /** A number with a unit, in blanks or not, is the number times 1, 1024, 1048576 or
      1073741824, and refused if and only if that is negative or more than 1 << 62. */
  lemma SizesInNumbers(before: string, n: int, letter: string, unit: int, after: string)
    requires Worth(letter, unit) && Blank(before) && Blank(after)
    ensures Parse(before + (FormatInt(n) + letter + after)) ==
            if 0 <= n && n * unit <= 4_611_686_018_427_387_904 then Some(n * unit) else None
  {
    var number := FormatInt(n);
    var small := if letter == "K" then "k" else if letter == "M" then "m" else if letter == "G" then "g" else letter;
    NumberChars(n);
    var s := number + letter;
    assert s[0] == number[0] && InNumber(number[0]) && InNumber(number[|number| - 1]);
    assert s[|s| - 1] == if letter == "" then number[|number| - 1] else letter[0];
    TrimRightAround(before, s, after);
    LowerOfLetter(number, letter, small);
    SmallUnit(number, small, unit);
    FormatParses(n);
    InRange(n, unit);
    if 0 <= n <= LIMIT / unit { ShiftFits(n, unit); }
  }

  lemma TrimRightAround(before: string, s: string, after: string)
    requires s != "" && !IsSpace(s[0]) && !IsSpace(s[|s| - 1]) && Blank(before) && Blank(after)
    ensures TrimLeft(TrimRight(before + (s + after))) == s
  {
    assert before + (s + after) == (before + s) + after;
    TrimRightOfBlank(before + s, after);
    TrimLeftOfBlank(before, s);
  }

  lemma SmallUnit(number: string, small: string, unit: int)
    requires UnitFor(small, unit) && number != "" && InNumber(number[|number| - 1])
    ensures UnitOf(number + small) == (unit, number)
  {
    var s := number + small;
    if small == "" { assert s == number; } else { assert s[|s| - 1] == small[0] && s[..|s| - 1] == number; }
  }

  lemma InRange(n: int, unit: int)
    requires unit == 1 || unit == K || unit == M || unit == G
    ensures 0 <= n <= LIMIT / unit <==> 0 <= n * unit <= LIMIT
  {
    if unit == 1 {
    } else if unit == K {
    } else if unit == M {
    } else {
    }
  }

  lemma RoundTripWith(b: int, n: int, unit: int, suffix: string)
    requires UnitFor(suffix, unit) && MIN_INT64 <= n <= MAX_INT64 && n * unit == b
    ensures Parse(FormatInt(n) + suffix) == if 0 <= b <= LIMIT then Some(b) else None
  {
    InRange(n, unit);
    ParseWithUnit(n, unit, suffix);
  }

  /** A 64-bit count survives being printed and parsed if and only if it lies between 0
      and 1 << 62, whatever unit it is printed with; any other is refused, not misread. */
  lemma SizesRoundTripIff(b: int)
    requires -9_223_372_036_854_775_808 <= b <= 9_223_372_036_854_775_807
    ensures Parse(Print(b)) == if 0 <= b <= 4_611_686_018_427_387_904 then Some(b) else None
  {
    if b >= G && b % G == 0 {
      RoundTripWith(b, b / G, G, "g");
    } else if b >= M && b % M == 0 {
      RoundTripWith(b, b / M, M, "m");
    } else if b >= K && b % K == 0 {
      RoundTripWith(b, b / K, K, "k");
    } else {
      RoundTripWith(b, b, 1, "");
      assert FormatInt(b) + "" == FormatInt(b);
    }
  }
}
