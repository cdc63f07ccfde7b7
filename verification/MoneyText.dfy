/** The decimal spelling of money: the byte-by-byte parser and the canonical printer. */
module MoneyText {
  import opened Base
  import opened Money

  const SCALE := 2

  /* ---- decimal digits ---- */

  predicate IsDigit(c: char) { '0' <= c <= '9' }

  function DigitValue(c: char): (d: nat)
    requires IsDigit(c)
    ensures d <= 9
  {
    c as int - '0' as int
  }

  predicate AllDigits(s: string) {
    forall i :: 0 <= i < |s| ==> IsDigit(s[i])
  }

  /** The number a run of digits denotes. */
  function Digits(s: string): nat
    requires AllDigits(s)
  {
    if s == "" then 0 else 10 * Digits(s[..|s| - 1]) + DigitValue(s[|s| - 1])
  }

  lemma DigitsAppend(s: string, c: char)
    requires AllDigits(s) && IsDigit(c)
    ensures AllDigits(s + [c]) && Digits(s + [c]) == 10 * Digits(s) + DigitValue(c)
  {
    assert (s + [c])[..|s|] == s;
  }

  lemma {:induction false} DigitsGrow(s: string, t: string)
    requires AllDigits(s) && AllDigits(t)
    ensures AllDigits(s + t) && Digits(s) <= Digits(s + t)
  {
    if t == "" {
      assert s + t == s;
    } else {
      var u := t[..|t| - 1];
      DigitsGrow(s, u);
      DigitsAppend(s + u, t[|t| - 1]);
      assert (s + u) + [t[|t| - 1]] == s + t;
    }
  }

  /* ---- the grammar: -?digits(.digit{1,2})? ---- */

  predicate IsNegative(s: string) { s != "" && s[0] == '-' }

  function Unsigned(s: string): string {
    if IsNegative(s) then s[1..] else s
  }

  /** How many characters stand before the first point. */
  function PointAt(b: string): (k: nat)
    ensures k <= |b| && '.' !in b[..k] && (k < |b| ==> b[k] == '.')
  {
    if b == "" || b[0] == '.' then 0
    else
      var k := 1 + PointAt(b[1..]);
      assert b[..k] == [b[0]] + b[1..][..k - 1];
      k
  }

  function Fraction(b: string): string {
    if PointAt(b) == |b| then "" else b[PointAt(b) + 1..]
  }

  predicate IsAmount(s: string) {
    var b := Unsigned(s);
    var k := PointAt(b);
    && 0 < k
    && AllDigits(b[..k])
    && AllDigits(Fraction(b))
    && (k < |b| ==> 1 <= |Fraction(b)| <= SCALE)
  }

  function Magnitude(s: string): nat
    requires IsAmount(s)
  {
    var b := Unsigned(s);
    Digits(b[..PointAt(b)] + Fraction(b)) * PadFactor(|Fraction(b)|)
  }

  function PadFactor(digits: nat): nat {
    if digits == 0 then 100 else if digits == 1 then 10 else 1
  }

  /** The minor units an amount denotes, as an unbounded integer. */
  function AmountOf(s: string): int
    requires IsAmount(s)
  {
    if IsNegative(s) then 0 - Magnitude(s) else Magnitude(s)
  }

  /** The longest run of digits at the front. */
  function Run(b: string): (r: string)
    ensures r <= b && AllDigits(r) && (|r| < |b| ==> !IsDigit(b[|r|]))
  {
    if b == "" || !IsDigit(b[0]) then "" else [b[0]] + Run(b[1..])
  }

  function AtMost(n: nat, s: string): (r: string)
    ensures r <= s && (AllDigits(s) ==> AllDigits(r))
  {
    if |s| <= n then s else s[..n]
  }

  /** The digits a left-to-right reader gets to see before something stops it. */
  function ReadableDigits(b: string): (r: string)
    ensures AllDigits(r)
  {
    var units := Run(b);
    if units != "" && |units| < |b| && b[|units|] == '.'
    then units + AtMost(SCALE, Run(b[|units| + 1..]))
    else units
  }

  function MagnitudeLimit(negative: bool): (limit: uint64) {
    if negative then TWO_TO_63 else TWO_TO_63 - 1
  }

  /**
   * What parsing yields, said without a scanner: exactly the amounts of the
   * grammar whose value fits, and for the rest an overflow when the digits read
   * so far are already too large, a malformed amount otherwise.
   */
  function ParseMinor(s: string): (r: Result<int64>) {
    if IsAmount(s) && InInt64(AmountOf(s)) then Ok(AmountOf(s))
    else if IsAmount(s) || Digits(ReadableDigits(Unsigned(s))) > MagnitudeLimit(IsNegative(s))
    then Err(Domain(AmountOverflow))
    else Err(Domain(InvalidAmount))
  }

  /* ---- the scanner ---- */

  /** acc*10+d in wrapping uint64, refused before it can wrap. */
  function PushDigit(acc: uint64, d: uint64, limit: uint64): (r: Option<uint64>)
    requires d <= 9 && TWO_TO_63 - 1 <= limit
    ensures r == if acc * 10 + d <= limit then Some(acc * 10 + d) else None
  {
    if acc > WrapUnsigned64(limit - d) / 10 then None
    else Some(WrapUnsigned64(WrapUnsigned64(acc * 10) + d))
  }

  lemma RunIs(b: string, k: nat)
    requires k <= |b| && AllDigits(b[..k]) && (k < |b| ==> !IsDigit(b[k]))
    ensures Run(b) == b[..k]
  {
    assert forall i :: 0 <= i < k ==> IsDigit(b[..k][i]) && b[..k][i] == b[i];
    assert forall i :: 0 <= i < |Run(b)| ==> IsDigit(Run(b)[i]) && Run(b)[i] == b[i];
  }

  lemma RunCovers(b: string, k: nat)
    requires k <= |b| && AllDigits(b[..k])
    ensures b[..k] <= Run(b)
  {
    assert forall i :: 0 <= i < k ==> IsDigit(b[..k][i]) && b[..k][i] == b[i];
    assert Run(b) == b[..|Run(b)|];
  }

  /** The first point comes after any run of digits at the front. */
  lemma PointAfterDigits(b: string, j: nat)
    requires j <= |b| && AllDigits(b[..j])
    ensures j <= PointAt(b)
  {
    assert forall i :: 0 <= i < j ==> IsDigit(b[..j][i]) && b[..j][i] == b[i];
  }

  /** Before the first point there are only digits in an amount. */
  lemma PointIs(b: string, k: nat)
    requires k <= |b| && AllDigits(b[..k]) && (k < |b| ==> b[k] == '.')
    ensures PointAt(b) == k
  {
    PointAfterDigits(b, k);
    assert forall i :: 0 <= i < PointAt(b) ==> b[..PointAt(b)][i] == b[i] && b[i] in b[..PointAt(b)];
  }

  /** Reading on can only make the digits seen so far a larger number. */
  lemma PrefixTooLarge(p: string, whole: string, limit: nat)
    requires AllDigits(whole) && p <= whole && AllDigits(p) && Digits(p) > limit
    ensures Digits(whole) > limit
  {
    DigitsGrow(p, whole[|p|..]);
    assert p + whole[|p|..] == whole;
  }

  /** An amount whose digits are too large is an overflow, whatever its scale. */
  lemma TooLarge(s: string, p: string)
    requires AllDigits(p) && Digits(p) > MagnitudeLimit(IsNegative(s))
    requires p <= ReadableDigits(Unsigned(s))
    requires IsAmount(s) ==> p <= Unsigned(s)[..PointAt(Unsigned(s))] + Fraction(Unsigned(s))
    ensures ParseMinor(s) == Err(Domain(AmountOverflow))
  {
    var b, limit := Unsigned(s), MagnitudeLimit(IsNegative(s));
    PrefixTooLarge(p, ReadableDigits(b), limit);
    if IsAmount(s) {
      PrefixTooLarge(p, b[..PointAt(b)] + Fraction(b), limit);
      var d, f := Digits(b[..PointAt(b)] + Fraction(b)), PadFactor(|Fraction(b)|);
      assert d * f >= d;
    }
  }

  lemma OverflowInUnits(s: string, b: string, j: nat)
    requires b == Unsigned(s) && j <= |b| && AllDigits(b[..j])
    requires Digits(b[..j]) > MagnitudeLimit(IsNegative(s))
    ensures ParseMinor(s) == Err(Domain(AmountOverflow))
  {
    RunCovers(b, j);
    PointAfterDigits(b, j);
    TooLarge(s, b[..j]);
  }

  lemma OverflowInFraction(s: string, b: string, k: nat, j: nat)
    requires b == Unsigned(s) && 0 < k < |b| && b[k] == '.'
    requires AllDigits(b[..k]) && j <= SCALE && k + 1 + j <= |b| && AllDigits(b[k + 1..][..j])
    requires AllDigits(b[..k] + b[k + 1..][..j])
    requires Digits(b[..k] + b[k + 1..][..j]) > MagnitudeLimit(IsNegative(s))
    ensures ParseMinor(s) == Err(Domain(AmountOverflow))
  {
    hide Digits, ParseMinor, Run, PointAt, IsAmount;
    RunIs(b, k);
    PointIs(b, k);
    var rest := b[k + 1..];
    RunCovers(rest, j);
    assert rest[..j] <= AtMost(SCALE, Run(rest));
    PrefixAfter(b[..k], rest[..j], AtMost(SCALE, Run(rest)));
    PrefixAfter(b[..k], rest[..j], rest);
    TooLarge(s, b[..k] + rest[..j]);
  }

  lemma PrefixAfter(front: string, x: string, y: string)
    requires x <= y
    ensures front + x <= front + y
  {
    assert front + y == (front + x) + y[|x|..];
  }

  lemma BadUnits(s: string, b: string, j: nat)
    requires b == Unsigned(s) && j < |b| && AllDigits(b[..j]) && !IsDigit(b[j]) && b[j] != '.'
    requires Digits(b[..j]) <= MagnitudeLimit(IsNegative(s))
    ensures ParseMinor(s) == Err(Domain(InvalidAmount))
  {
    RunIs(b, j);
    PointAfterDigits(b, j);
    assert j < PointAt(b) && b[..PointAt(b)][j] == b[j];
  }

  lemma BadFraction(s: string, b: string, k: nat, j: nat)
    requires b == Unsigned(s) && 0 < k < |b| && b[k] == '.'
    requires AllDigits(b[..k]) && j <= SCALE && k + 1 + j < |b| && AllDigits(b[k + 1..][..j])
    requires !IsDigit(b[k + 1 + j]) || j == SCALE
    requires AllDigits(b[..k] + b[k + 1..][..j])
    requires Digits(b[..k] + b[k + 1..][..j]) <= MagnitudeLimit(IsNegative(s))
    ensures ParseMinor(s) == Err(Domain(InvalidAmount))
  {
    RunIs(b, k);
    PointIs(b, k);
    var rest := b[k + 1..];
    assert rest[j] == b[k + 1 + j];
    if j == SCALE {
      RunCovers(rest, j);
      assert AtMost(SCALE, Run(rest)) == rest[..j];
    } else {
      RunIs(rest, j);
    }
    assert ReadableDigits(b) == b[..k] + rest[..j];
  }

  lemma NoDigits(b: string)
    ensures AllDigits(b[..0]) && Digits(b[..0]) == 0
  {
  }

  lemma NoUnits(s: string)
    requires s != "" && PointAt(Unsigned(s)) == 0
    ensures ParseMinor(s) == Err(Domain(InvalidAmount))
  {
    assert Run(Unsigned(s)) == "";
  }

  /** First loop: the digits before the point. */
  method ReadUnits(s: string, negative: bool, limit: uint64) returns (r: Result<uint64>, k: nat)
    requires s != "" && negative == IsNegative(s) && limit == MagnitudeLimit(negative)
    ensures r.Err? ==> r.error.Domain? && ParseMinor(s) == Err(r.error)
    ensures r.Ok? ==>
              && 0 < k <= |Unsigned(s)| && AllDigits(Unsigned(s)[..k]) && PointAt(Unsigned(s)) == k
              && r.value == Digits(Unsigned(s)[..k]) && r.value <= limit
              && (k == |Unsigned(s)| ==> AllDigits(Unsigned(s)) && r.value == Digits(Unsigned(s)))
  {
    hide Run, ReadableDigits, Digits, ParseMinor;
    ghost var b := Unsigned(s);
    var start := if negative then 1 else 0;
    var i := start;
    var acc: uint64 := 0;
    k := 0;
    NoDigits(b);
    while i < |s| && s[i] != '.'
      invariant start <= i <= |s| && k == i - start
      invariant AllDigits(b[..k]) && acc == Digits(b[..k]) && acc <= limit
    {
      assert s[i] == b[k];
      if !IsDigit(s[i]) {
        BadUnits(s, b, k);
        return Err(Domain(InvalidAmount)), k;
      }
      DigitsAppend(b[..k], s[i]);
      assert b[..k + 1] == b[..k] + [s[i]];
      var pushed := PushDigit(acc, DigitValue(s[i]), limit);
      if pushed.None? {
        OverflowInUnits(s, b, k + 1);
        return Err(Domain(AmountOverflow)), k;
      }
      acc := pushed.value;
      i, k := i + 1, k + 1;
    }
    PointIs(b, k);
    if k == 0 {
      NoUnits(s);
      return Err(Domain(InvalidAmount)), k;
    }
    if k == |b| { assert b[..k] == b; }
    r := Ok(acc);
  }

  /** Second loop: at most two digits after the point, at least one. */
  method ReadFraction(s: string, k: nat, units: uint64, limit: uint64) returns (r: Result<uint64>, digits: nat)
    requires limit == MagnitudeLimit(IsNegative(s))
    requires 0 < k < |Unsigned(s)| && AllDigits(Unsigned(s)[..k]) && PointAt(Unsigned(s)) == k
    requires units == Digits(Unsigned(s)[..k]) && units <= limit
    ensures r.Err? ==> r.error.Domain? && ParseMinor(s) == Err(r.error)
    ensures r.Ok? ==>
              && IsAmount(s) && 1 <= digits <= SCALE && r.value <= limit
              && Magnitude(s) == (if digits == 1 then 10 * r.value else r.value)
  {
    hide Run, ReadableDigits, Digits, ParseMinor;
    ghost var b := Unsigned(s);
    ghost var rest := b[k + 1..];
    var acc, i := units, |s| - |Unsigned(s)| + k + 1;
    digits := 0;
    assert b[..k] + rest[..0] == b[..k];
    while i < |s|
      invariant i == |s| - |b| + k + 1 + digits <= |s| && digits <= SCALE
      invariant AllDigits(rest[..digits])
      invariant acc == Digits(b[..k] + rest[..digits]) && acc <= limit
    {
      assert s[i] == b[k + 1 + digits] == rest[digits];
      if !IsDigit(s[i]) || digits == SCALE {
        BadFraction(s, b, k, digits);
        return Err(Domain(InvalidAmount)), digits;
      }
      DigitsAppend(b[..k] + rest[..digits], s[i]);
      assert rest[..digits + 1] == rest[..digits] + [s[i]];
      assert b[..k] + rest[..digits + 1] == (b[..k] + rest[..digits]) + [s[i]];
      var pushed := PushDigit(acc, DigitValue(s[i]), limit);
      if pushed.None? {
        OverflowInFraction(s, b, k, digits + 1);
        return Err(Domain(AmountOverflow)), digits;
      }
      acc := pushed.value;
      i, digits := i + 1, digits + 1;
    }
    assert rest[..digits] == rest == Fraction(b);
    if digits == 0 {
      TrailingPoint(s, b, k);
      return Err(Domain(InvalidAmount)), digits;
    }
    r := Ok(acc);
  }

  lemma EmptyOrPlus(s: string)
    requires s == "" || s[0] == '+'
    ensures ParseMinor(s) == Err(Domain(InvalidAmount))
  {
    if s != "" {
      BadUnits(s, s, 0);
    }
  }

  lemma WholeUnits(s: string)
    requires var b := Unsigned(s); 0 < |b| && AllDigits(b) && PointAt(b) == |b|
    ensures IsAmount(s) && Magnitude(s) == 100 * Digits(Unsigned(s))
  {
    var b := Unsigned(s);
    assert b[..|b|] + Fraction(b) == b == b[..|b|];
  }

  lemma Accepted(s: string)
    requires IsAmount(s)
    ensures AmountOf(s) == if s[0] == '-' then 0 - Magnitude(s) else Magnitude(s)
    ensures if InInt64(AmountOf(s)) then ParseMinor(s) == Ok(AmountOf(s))
            else ParseMinor(s) == Err(Domain(AmountOverflow))
  {
  }

  lemma TrailingPoint(s: string, b: string, k: nat)
    requires b == Unsigned(s) && 0 < k && |b| == k + 1 && b[k] == '.'
    requires AllDigits(b[..k]) && Digits(b[..k]) <= MagnitudeLimit(IsNegative(s))
    ensures ParseMinor(s) == Err(Domain(InvalidAmount))
  {
    RunIs(b, k);
    PointIs(b, k);
    assert ReadableDigits(b) == b[..k];
  }

  /** The scanner accepts exactly the grammar and never lets the accumulator wrap. */
  method ScanMinor(s: string) returns (r: Result<int64>)
    ensures r == ParseMinor(s)
  {
    hide Run, PointAt, ReadableDigits, Digits, AllDigits, ParseMinor, IsAmount, Magnitude, Fraction;
    if s == "" || s[0] == '+' {
      EmptyOrPlus(s);
      return Err(Domain(InvalidAmount));
    }
    var negative := s[0] == '-';
    var limit: uint64 := TWO_TO_63 - 1;
    if negative {
      limit := WrapUnsigned64(limit + 1);
    }
    var b := Unsigned(s);
    var units, k := ReadUnits(s, negative, limit);
    if units.Err? {
      return Err(units.error);
    }
    var acc, digits := units.value, 0;
    if k < |b| {
      var read;
      read, digits := ReadFraction(s, k, acc, limit);
      if read.Err? {
        return Err(read.error);
      }
      acc := read.value;
    } else {
      WholeUnits(s);
    }

    Accepted(s);
    ghost var total := Magnitude(s);
    while digits < SCALE
      invariant digits <= SCALE && acc <= limit
      invariant total == (if digits == 0 then 100 * acc else if digits == 1 then 10 * acc else acc)
    {
      var pushed := PushDigit(acc, 0, limit);
      if pushed.None? {
        return Err(Domain(AmountOverflow));
      }
      acc := pushed.value;
      digits := digits + 1;
    }

    assert total == acc && AmountOf(s) == if negative then 0 - acc else acc;
    if !negative {
      return Ok(Wrap64(acc));
    }
    if acc == WrapUnsigned64(TWO_TO_63 - 1 + 1) {
      return Ok(MIN_INT64);
    }
    return Ok(Wrap64(0 - Wrap64(acc)));
  }

  /* ---- the printer ---- */

  function DigitChar(d: nat): (c: char)
    requires d <= 9
    ensures IsDigit(c) && DigitValue(c) == d
  {
    ('0' as int + d) as char
  }

  /** The decimal numeral of a natural number, without leading zeros. */
  function Numeral(n: nat): (s: string)
    ensures s != "" && AllDigits(s) && Digits(s) == n
  {
    if n < 10 then
      assert [DigitChar(n)][..0] == "";
      [DigitChar(n)]
    else
      DigitsAppend(Numeral(n / 10), DigitChar(n % 10));
      Numeral(n / 10) + [DigitChar(n % 10)]
  }

  /** The canonical spelling: sign, units, point, two places. */
  function Spelling(minor: int64): string {
    var magnitude: nat := if minor < 0 then 0 - minor else minor;
    (if minor < 0 then "-" else "") + Numeral(magnitude / 100) + "."
    + [DigitChar(magnitude % 100 / 10), DigitChar(magnitude % 10)]
  }

  lemma {:induction false} NoLeadingZero(n: nat)
    ensures Numeral(n)[0] == '0' ==> n == 0 && |Numeral(n)| == 1
  {
    if 10 <= n {
      NoLeadingZero(n / 10);
    } else if 0 < n {
      assert DigitValue(DigitChar(n)) == n;
    }
  }

  /** A sign if negative, at least one digit and no needless zero before the point, and two after it. */
  lemma SpelledInFull(minor: int64)
    ensures var s, sign := Spelling(minor), if minor < 0 then 1 else 0;
            && 4 + sign <= |s| && s[|s| - 3] == '.' && (s[0] == '-' <==> minor < 0)
            && AllDigits(s[sign..|s| - 3]) && AllDigits(s[|s| - 2..])
            && (s[sign] == '0' ==> |s| == 4 + sign)
            && var hundredths: int := Digits(s[sign..|s| - 3]) * 100 + Digits(s[|s| - 2..]);
               minor as int == if minor < 0 then 0 - hundredths else hundredths
  {
    hide Digits, Numeral, AllDigits;
    var magnitude: nat := if minor < 0 then 0 - minor else minor;
    var units := Numeral(magnitude / 100);
    var places := [DigitChar(magnitude % 100 / 10), DigitChar(magnitude % 10)];
    NoLeadingZero(magnitude / 100);
    TwoDigits(magnitude % 100 / 10, magnitude % 10);
    HundredthsAddUp(magnitude);
    DigitsFirst(units);
    SpellingParts(Spelling(minor), if minor < 0 then "-" else "", units, places);
  }

  lemma DigitsFirst(s: string)
    requires s != "" && AllDigits(s)
    ensures IsDigit(s[0])
  {
  }

  lemma HundredthsAddUp(n: nat)
    ensures n / 100 * 100 + (10 * (n % 100 / 10) + n % 10) == n
  {
  }

  lemma SpellingParts(s: string, sign: string, units: string, places: string)
    requires s == sign + units + "." + places && |places| == 2 && units != ""
    ensures |s| == |sign| + |units| + 3 && s[|s| - 3] == '.'
    ensures s[|sign|] == units[0] && (sign != "" ==> s[0] == sign[0])
    ensures s[|sign|..|s| - 3] == units && s[|s| - 2..] == places
  {
  }

  lemma TwoDigits(a: nat, b: nat)
    requires a <= 9 && b <= 9
    ensures AllDigits([DigitChar(a), DigitChar(b)]) && Digits([DigitChar(a), DigitChar(b)]) == 10 * a + b
  {
    assert [DigitChar(a), DigitChar(b)] == [DigitChar(a)] + [DigitChar(b)];
    DigitsAppend([DigitChar(a)], DigitChar(b));
    assert [DigitChar(a)][..0] == "";
  }

  /** Builds the spelling as the printer does: the magnitude taken in uint64, the minimum included. */
  method Print(minor: int64) returns (out: string)
    ensures out == Spelling(minor)
  {
    var magnitude: uint64;
    out := "";
    if minor < 0 {
      out := out + "-";
      magnitude := WrapUnsigned64(WrapUnsigned64(Wrap64(0 - Wrap64(minor + 1))) + 1);
    } else {
      magnitude := WrapUnsigned64(minor);
    }
    var units := magnitude / 100;
    var fraction := magnitude % 100;
    ghost var sign := out;
    assert sign == if minor < 0 then "-" else "";
    assert magnitude as int == if minor < 0 then 0 - minor else minor;
    out := out + Numeral(units);
    out := out + ".";
    ghost var head := out;
    if fraction < 10 {
      out := out + "0";
    }
    out := out + Numeral(fraction);
    TwoPlaces(fraction);
    assert out == head + ((if fraction < 10 then "0" else "") + Numeral(fraction));
    LastTwo(magnitude);
  }

  lemma LastTwo(n: nat)
    ensures n % 100 % 10 == n % 10
  {
  }

  lemma TwoPlaces(fraction: nat)
    requires fraction < 100
    ensures (if fraction < 10 then "0" else "") + Numeral(fraction)
            == [DigitChar(fraction / 10), DigitChar(fraction % 10)]
  {
  }

  /** The text units.dd reads as 100 times its units plus its two places. */
  lemma TwoPlaceAmount(s: string, b: string, units: string, tens: char, ones: char)
    requires AllDigits(units) && units != "" && IsDigit(tens) && IsDigit(ones)
    requires b == units + "." + [tens, ones] && b == Unsigned(s)
    ensures IsAmount(s) && Magnitude(s) == 10 * (10 * Digits(units) + DigitValue(tens)) + DigitValue(ones)
  {
    assert b[..|units|] == units;
    PointIs(b, |units|);
    assert Fraction(b) == [tens, ones];
    DigitsAppend(units, tens);
    DigitsAppend(units + [tens], ones);
    assert units + [tens, ones] == units + [tens] + [ones];
  }

  /** Parsing what was printed gives back every int64, the minimum included. */
  lemma ParsePrinted(minor: int64)
    ensures ParseMinor(Spelling(minor)) == Ok(minor)
  {
    hide Digits, Run, ReadableDigits, IsAmount, Numeral, PointAt, Magnitude;
    var s := Spelling(minor);
    var magnitude: nat := if minor < 0 then 0 - minor else minor;
    var units := Numeral(magnitude / 100);
    var tens, ones := DigitChar(magnitude % 100 / 10), DigitChar(magnitude % 10);
    var b := units + "." + [tens, ones];
    assert IsDigit(units[0]);
    assert s == if minor < 0 then "-" + b else b;
    assert Unsigned(s) == b;
    TwoPlaceAmount(s, b, units, tens, ones);
    SplitHundred(magnitude);
    assert AmountOf(s) == minor;
  }

  lemma SplitHundred(n: nat)
    ensures n == 10 * (10 * (n / 100) + n % 100 / 10) + n % 10
  {
  }

  /** Two amounts print alike exactly when they are the same number of minor units. */
  lemma SpellingInjective(a: int64, b: int64)
    ensures Spelling(a) == Spelling(b) <==> a == b
  {
    ParsePrinted(a);
    ParsePrinted(b);
  }

  function ParseExternal(amount: string, currency: string): (r: Result<Money>)
    ensures r.Ok? <==> currency != "" && IsAmount(amount) && 0 <= AmountOf(amount) <= MAX_INT64
    ensures r.Ok? ==> r.value == Money(AmountOf(amount), currency)
  {
    if currency == "" then Err(Domain(InvalidCurrency))
    else
      var minor :- ParseMinor(amount);
      if minor < 0 then Err(Domain(NegativeAmount)) else Ok(Money(minor, currency))
  }
}
