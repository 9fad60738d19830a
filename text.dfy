/**
 * The string operations the agent relies on, written out: Python's `k in s`
 * substring test, `str.lower`, `str.strip`, `str(int)`, `str.join`, the `repr`
 * of an amount with at most two decimals, and `strftime("%Y-%m-%d")`.
 */
module Text {

  // ---------------------------------------------------------------------------
  // Substring containment (Python `k in s` on two strings)
  // ---------------------------------------------------------------------------

  /** `k` occurs in `s` starting at index `i`. */
  predicate OccursAt(s: string, k: string, i: int) {
    0 <= i && i + |k| <= |s| && s[i..i + |k|] == k
  }

  /** Python's `k in s`: `k` is a contiguous block of `s` (so "app" is in "happy"). */
  predicate Contains(s: string, k: string)
    decreases |s|
  {
    (|k| <= |s| && s[..|k|] == k) || (s != [] && Contains(s[1..], k))
  }

  lemma {:induction false} ContainsIff(s: string, k: string)
    ensures Contains(s, k) <==> exists i :: OccursAt(s, k, i)
    decreases |s|
  {
    if |k| <= |s| && s[..|k|] == k {
      assert OccursAt(s, k, 0);
    } else if s != [] {
      ContainsIff(s[1..], k);
      if Contains(s[1..], k) {
        var i :| OccursAt(s[1..], k, i);
        assert s[1..][i..i + |k|] == s[i + 1..i + 1 + |k|];
        assert OccursAt(s, k, i + 1);
      }
      if exists i :: OccursAt(s, k, i) {
        var i :| OccursAt(s, k, i);
        assert i != 0;
        assert s[1..][i - 1..i - 1 + |k|] == s[i..i + |k|];
        assert OccursAt(s[1..], k, i - 1);
      }
    }
  }

  /** A witness occurrence proves containment. */
  lemma ContainsAt(s: string, k: string, i: int)
    requires OccursAt(s, k, i)
    ensures Contains(s, k)
  {
    ContainsIff(s, k);
  }

  /** A text built around the keyword contains it. */
  lemma ContainsInfix(a: string, k: string, b: string)
    ensures Contains(a + k + b, k)
  {
    assert (a + k + b)[|a|..|a| + |k|] == k;
    ContainsAt(a + k + b, k, |a|);
  }

  /** A keyword with a character the text lacks cannot occur in it. */
  lemma NotContainsMissingChar(s: string, k: string, c: char)
    requires c in k && c !in s
    ensures !Contains(s, k)
  {
    if Contains(s, k) {
      ContainsChars(s, k);
    }
  }

  /** No keyword of `ks` occurs in `s` when each has a character, `cs[j]` for `ks[j]`, that `s` lacks. */
  lemma NotContainsAnyMissingChars(s: string, ks: seq<string>, cs: seq<char>)
    requires |cs| == |ks| && forall j :: 0 <= j < |ks| ==> cs[j] in ks[j] && cs[j] !in s
    ensures !ContainsAny(s, ks)
  {
    ContainsAnyIff(s, ks);
    forall j | 0 <= j < |ks|
      ensures !Contains(s, ks[j])
    {
      NotContainsMissingChar(s, ks[j], cs[j]);
    }
  }

  /** Every character of a contained keyword is a character of the text. */
  lemma ContainsChars(s: string, k: string)
    requires Contains(s, k)
    ensures forall c :: c in k ==> c in s
  {
    ContainsIff(s, k);
    var i :| OccursAt(s, k, i);
    forall c | c in k
      ensures c in s
    {
      var j :| 0 <= j < |k| && k[j] == c;
      assert s[i + j] == c;
    }
  }

  /** Python's `any(k in s for k in ks)`. */
  predicate ContainsAny(s: string, ks: seq<string>) {
    ks != [] && (Contains(s, ks[0]) || ContainsAny(s, ks[1..]))
  }

  lemma {:induction false} ContainsAnyIff(s: string, ks: seq<string>)
    ensures ContainsAny(s, ks) <==> exists j :: 0 <= j < |ks| && Contains(s, ks[j])
  {
    if ks != [] {
      ContainsAnyIff(s, ks[1..]);
      if exists j :: 0 <= j < |ks| && Contains(s, ks[j]) {
        var j :| 0 <= j < |ks| && Contains(s, ks[j]);
        if j > 0 {
          assert ks[1..][j - 1] == ks[j];
        }
      }
    }
  }

  // ---------------------------------------------------------------------------
  // Normalisation: text.lower().strip()
  // ---------------------------------------------------------------------------

  predicate IsUpper(c: char) {
    'A' <= c <= 'Z'
  }

  function LowerChar(c: char): (r: char)
    ensures !IsUpper(r)
  {
    if IsUpper(c) then (c as int + 32) as char else c
  }

  /** `str.lower` restricted to ASCII letters. */
  function Lower(s: string): (r: string)
    ensures |r| == |s|
    ensures forall i :: 0 <= i < |s| ==> r[i] == LowerChar(s[i])
  {
    seq(|s|, i requires 0 <= i < |s| => LowerChar(s[i]))
  }

  /** The characters `str.strip()` removes: exactly those for which `str.isspace()` holds. */
  predicate IsSpace(c: char) {
    var n := c as int;
    (9 <= n <= 13) || (28 <= n <= 32) || n == 0x85 || n == 0xA0 || n == 0x1680
    || (0x2000 <= n <= 0x200A) || n == 0x2028 || n == 0x2029 || n == 0x202F
    || n == 0x205F || n == 0x3000
  }

  /** Every character of `s` is whitespace. */
  predicate AllSpace(s: string) {
    forall i :: 0 <= i < |s| ==> IsSpace(s[i])
  }

  /** `str.lstrip()`: drops the leading whitespace. */
  function TrimStart(s: string): string {
    if s != [] && IsSpace(s[0]) then TrimStart(s[1..]) else s
  }

  /** The left strip is a suffix whose dropped prefix is all whitespace and which does not start with whitespace. */
  lemma {:induction false} TrimStartShape(s: string)
    ensures var r := TrimStart(s);
      |r| <= |s| && r == s[|s| - |r|..] && AllSpace(s[..|s| - |r|]) && (r != [] ==> !IsSpace(r[0]))
  {
    if s != [] && IsSpace(s[0]) {
      TrimStartShape(s[1..]);
      var r := TrimStart(s);
      var k := |s| - |r|;
      assert s[1..][k - 1..] == s[k..];
      assert s[..k] == [s[0]] + s[1..][..k - 1];
    }
  }

  /** `str.rstrip()`: drops the trailing whitespace. */
  function TrimEnd(s: string): string {
    if s != [] && IsSpace(s[|s| - 1]) then TrimEnd(s[..|s| - 1]) else s
  }

  /** The right strip is a prefix whose dropped suffix is all whitespace and which does not end with whitespace. */
  lemma {:induction false} TrimEndShape(s: string)
    ensures var r := TrimEnd(s);
      |r| <= |s| && r == s[..|r|] && AllSpace(s[|r|..]) && (r != [] ==> !IsSpace(r[|r| - 1]))
  {
    if s != [] && IsSpace(s[|s| - 1]) {
      var t := s[..|s| - 1];
      TrimEndShape(t);
      var r := TrimEnd(s);
      assert t[..|r|] == s[..|r|];
      assert s[|r|..] == t[|r|..] + [s[|s| - 1]];
    }
  }

  /** `str.strip()`. */
  function Trim(s: string): string {
    TrimEnd(TrimStart(s))
  }

  /** `_normalize` (agent.py): lower-case, then strip surrounding whitespace. */
  function Normalize(s: string): (r: string)
  {
    Trim(Lower(s))
  }

  /**
   * `_normalize` returns a block of the lower-cased message: no longer than the message, with
   * no upper-case letter left and no whitespace at either end.
   */
  lemma NormalizeShape(s: string)
    ensures var t := Normalize(s);
      |t| <= |s| && (exists i, j :: 0 <= i <= j <= |s| && t == Lower(s)[i..j])
      && (forall k :: 0 <= k < |t| ==> !IsUpper(t[k]))
      && (t != [] ==> !IsSpace(t[0]) && !IsSpace(t[|t| - 1]))
  {
    var i, j := TrimSlice(Lower(s));
    LowerSliceHasNoUpper(s, i, j);
    TrimEnds(Lower(s));
  }

  /** Stripping is a no-op on text that neither starts nor ends with whitespace. */
  lemma TrimStable(s: string)
    requires s != [] ==> !IsSpace(s[0]) && !IsSpace(s[|s| - 1])
    ensures Trim(s) == s
  {
    if s != [] {
      assert !IsSpace(s[0]) && !IsSpace(s[|s| - 1]);
    }
  }

  /** What `strip` returns is a block of its input. */
  lemma TrimSlice(s: string) returns (i: int, j: int)
    ensures 0 <= i <= j <= |s| && Trim(s) == s[i..j]
  {
    var t := TrimStart(s);
    TrimStartShape(s);
    TrimEndShape(t);
    i := |s| - |t|;
    j := i + |TrimEnd(t)|;
    SliceOfSuffix(s, i, j);
  }

  lemma SliceOfSuffix(s: string, i: int, j: int)
    requires 0 <= i <= j <= |s|
    ensures s[i..][..j - i] == s[i..j]
  {
  }

  /** What `strip` returns has whitespace-free ends. */
  lemma TrimEnds(s: string)
    ensures Trim(s) != [] ==> !IsSpace(Trim(s)[0]) && !IsSpace(Trim(s)[|Trim(s)| - 1])
  {
    var t := TrimStart(s);
    var u := TrimEnd(t);
    TrimStartShape(s);
    TrimEndShape(t);
    if u != [] {
      assert u == t[..|u|];
      assert u[0] == t[0];
    }
  }

  /** What `strip` returns is a block of its input with whitespace-free ends. */
  lemma TrimShape(s: string)
    ensures exists i, j :: 0 <= i <= j <= |s| && Trim(s) == s[i..j]
    ensures Trim(s) != [] ==> !IsSpace(Trim(s)[0]) && !IsSpace(Trim(s)[|Trim(s)| - 1])
  {
    var i, j := TrimSlice(s);
    TrimEnds(s);
  }

  /** Lower-casing changes nothing in text without upper-case letters. */
  lemma LowerStable(t: string)
    requires forall k :: 0 <= k < |t| ==> !IsUpper(t[k])
    ensures Lower(t) == t
  {
  }

  /** Every block of lower-cased text is free of upper-case letters. */
  lemma LowerSliceHasNoUpper(s: string, i: int, j: int)
    requires 0 <= i <= j <= |s|
    ensures forall k :: 0 <= k < j - i ==> !IsUpper(Lower(s)[i..j][k])
  {
    forall k | 0 <= k < j - i
      ensures !IsUpper(Lower(s)[i..j][k])
    {
      assert Lower(s)[i..j][k] == LowerChar(s[i + k]);
    }
  }

  /** Normalising twice is normalising once: normalised text is a fixed point of `_normalize`. */
  lemma {:induction false} NormalizeIdempotent(s: string)
    ensures Normalize(Normalize(s)) == Normalize(s)
  {
    var i, j := TrimSlice(Lower(s));
    var t := Lower(s)[i..j];
    assert t == Normalize(s);
    LowerSliceHasNoUpper(s, i, j);
    LowerStable(t);
    TrimEnds(Lower(s));
    TrimStable(t);
    assert Normalize(t) == Trim(t);
  }

  /** Text that is already lower-case and stripped is its own normal form. */
  lemma NormalizeStable(s: string)
    requires forall c :: c in s ==> !IsUpper(c)
    requires s != [] ==> !IsSpace(s[0]) && !IsSpace(s[|s| - 1])
    ensures Normalize(s) == s
  {
    assert forall i :: 0 <= i < |s| ==> s[i] in s;
    assert Lower(s) == s;
    TrimStable(s);
  }

  // ---------------------------------------------------------------------------
  // Decimal rendering: str(n) for integers
  // ---------------------------------------------------------------------------

  predicate IsDigit(c: char) {
    '0' <= c <= '9'
  }

  function DigitChar(d: nat): (c: char)
    requires d < 10
    ensures IsDigit(c) && c as int - '0' as int == d
  {
    (d + '0' as int) as char
  }

  function DigitValue(c: char): nat
    requires IsDigit(c)
  {
    c as int - '0' as int
  }

  /** Python's `str(n)` for a non-negative integer: decimal digits, no leading zero. */
  function NatToString(n: nat): (r: string)
    ensures r != [] && forall i :: 0 <= i < |r| ==> IsDigit(r[i])
    ensures r[0] == '0' ==> r == "0"
  {
    if n < 10 then [DigitChar(n)] else NatToString(n / 10) + [DigitChar(n % 10)]
  }

  /** The number a string of digits denotes (the inverse of NatToString). */
  function DecimalValue(s: string): nat
    requires forall i :: 0 <= i < |s| ==> IsDigit(s[i])
  {
    if s == [] then 0 else DecimalValue(s[..|s| - 1]) * 10 + DigitValue(s[|s| - 1])
  }

  lemma {:induction false} DecimalRoundTrip(n: nat)
    ensures DecimalValue(NatToString(n)) == n
  {
    if n >= 10 {
      var r := NatToString(n);
      assert r[..|r| - 1] == NatToString(n / 10);
      DecimalRoundTrip(n / 10);
    }
  }

  /** Distinct numbers render as distinct strings. */
  lemma NatToStringInjective(a: nat, b: nat)
    requires NatToString(a) == NatToString(b)
    ensures a == b
  {
    DecimalRoundTrip(a);
    DecimalRoundTrip(b);
  }

  /** Python's `str(n)` for any integer. */
  function IntToString(n: int): string {
    if n < 0 then "-" + NatToString(-n) else NatToString(n)
  }

  /** Left-pads `s` with zeros to width `w`, as strftime's numeric fields do. */
  function ZeroPad(s: string, w: nat): (r: string)
    ensures |r| == if |s| < w then w else |s|
    ensures r[|r| - |s|..] == s
    ensures forall i :: 0 <= i < |r| - |s| ==> r[i] == '0'
  {
    if |s| < w then seq(w - |s|, _ => '0') + s else s
  }

  /** 10 to the power `w`. */
  function Pow10(w: nat): (p: nat)
    ensures p >= 1
  {
    if w == 0 then 1 else 10 * Pow10(w - 1)
  }

  /** The last `w` decimal digits of `n`, most significant first, as a fixed-width field. */
  function FixedDigits(n: int, w: nat): (r: string)
    ensures |r| == w
    decreases w
  {
    if w == 0 then "" else FixedDigits(n / 10, w - 1) + [DigitChar(n % 10)]
  }

  /** The fixed-width field of zero is all zeros. */
  lemma {:induction false} FixedDigitsOfZero(w: nat)
    ensures FixedDigits(0, w) == seq(w, _ => '0')
  {
    if w > 0 {
      FixedDigitsOfZero(w - 1);
    }
  }

  /**
   * A number that fits in `w` digits prints in its fixed-width field exactly as
   * its decimal text left-padded with zeros to width `w`.
   */
  lemma {:induction false} FixedDigitsPadsDecimal(n: nat, w: nat)
    requires 1 <= w && n < Pow10(w)
    ensures FixedDigits(n, w) == ZeroPad(NatToString(n), w)
  {
    var d := [DigitChar(n % 10)];
    if n < 10 {
      FixedDigitsOfZero(w - 1);
      assert NatToString(n) == d;
      if 1 < w {
        assert ZeroPad(d, w) == seq(w - 1, _ => '0') + d;
      }
    } else {
      assert Pow10(1) == 10;
      assert n / 10 < Pow10(w - 1) by {
        var q := n / 10;
        assert 10 * q <= n < 10 * Pow10(w - 1);
      }
      FixedDigitsPadsDecimal(n / 10, w - 1);
      var s := NatToString(n / 10);
      assert NatToString(n) == s + d;
      assert |s| <= w - 1;
      if |s| + 1 < w {
        assert ZeroPad(s + d, w) == seq(w - 1 - |s|, _ => '0') + s + d;
        assert ZeroPad(s, w - 1) == seq(w - 1 - |s|, _ => '0') + s;
      }
    }
  }

  /** `", ".join(parts)` with separator `sep`. */
  function Join(parts: seq<string>, sep: string): string {
    if |parts| == 0 then ""
    else if |parts| == 1 then parts[0]
    else parts[0] + sep + Join(parts[1..], sep)
  }

  /** Joining three parts puts the separator between consecutive ones. */
  lemma JoinOfThree(parts: seq<string>, sep: string)
    requires |parts| == 3
    ensures Join(parts, sep) == parts[0] + sep + parts[1] + sep + parts[2]
  {
    assert parts[1..][1..] == parts[2..];
    assert Join(parts[1..], sep) == parts[1] + sep + parts[2];
  }

  // ---------------------------------------------------------------------------
  // Amounts: Python's repr of a float that has at most two decimals, given in cents
  // ---------------------------------------------------------------------------

  /**
   * `str(x)` for x = cents / 100: the integer part, a point, then the fraction
   * without trailing zeros but with at least one digit ("12.5", "2534.75", "0.0").
   */
  function CentsText(cents: nat): string {
    var frac := cents % 100;
    NatToString(cents / 100) + "."
      + (if frac % 10 == 0 then [DigitChar(frac / 10)] else [DigitChar(frac / 10), DigitChar(frac % 10)])
  }

  /**
   * The amount text reads back as the amount: the integer part is `cents / 100` in
   * decimal, then a point, then one or two fraction digits worth `cents % 100`,
   * with no trailing zero after the first.
   */
  lemma CentsTextReadsBack(cents: nat)
    ensures var t, w := CentsText(cents), NatToString(cents / 100);
      |w| < |t| && t[..|w|] == w && DecimalValue(w) == cents / 100 && t[|w|] == '.'
      && var f := t[|w| + 1..];
         (forall i :: 0 <= i < |f| ==> IsDigit(f[i]))
         && (|f| == 1 || |f| == 2)
         && (|f| == 1 ==> DecimalValue(f) * 10 == cents % 100)
         && (|f| == 2 ==> DecimalValue(f) == cents % 100 && f[1] != '0')
  {
    var t, w := CentsText(cents), NatToString(cents / 100);
    var frac := cents % 100;
    var f := if frac % 10 == 0 then [DigitChar(frac / 10)] else [DigitChar(frac / 10), DigitChar(frac % 10)];
    assert t == w + "." + f;
    assert t[|w| + 1..] == f;
    DecimalRoundTrip(cents / 100);
    if |f| == 2 {
      assert f[..1] == [DigitChar(frac / 10)];
      assert f[..1][..0] == [];
      assert DecimalValue(f[..1]) == frac / 10;
      assert DecimalValue(f) == DecimalValue(f[..1]) * 10 + frac % 10;
    }
  }

  /** The first amount of the history, 12.5, prints as Python prints it. */
  lemma CentsTextFirstAmount()
    ensures CentsText(1250) == "12.5"
  {
    assert NatToString(12) == "12";
  }

  /** A balance with two decimals prints both. */
  lemma CentsTextBalance()
    ensures CentsText(99812) == "998.12"
  {
    assert NatToString(998) == "998";
  }

  /** The zero balance of an unknown customer prints as "0.0". */
  lemma CentsTextZero()
    ensures CentsText(0) == "0.0"
  {
  }

  // ---------------------------------------------------------------------------
  // Dates: strftime("%Y-%m-%d") of a proleptic Gregorian ordinal (0001-01-01 is day 1)
  // ---------------------------------------------------------------------------

  /** Year, month and day of a date ordinal, by the civil-from-days algorithm. */
  function CivilFromOrdinal(ordinal: int): (int, int, int) {
    // Days counted from 0000-03-01, so that the leap day ends each 400-year era.
    var z := ordinal + 305;
    var era := z / 146097;
    var doe := z - era * 146097;
    var yoe := (doe - doe / 1460 + doe / 36524 - doe / 146096) / 365;
    var doy := doe - (365 * yoe + yoe / 4 - yoe / 100);
    var mp := (5 * doy + 2) / 153;
    var d := doy - (153 * mp + 2) / 5 + 1;
    var m := if mp < 10 then mp + 3 else mp - 9;
    (yoe + era * 400 + (if m <= 2 then 1 else 0), m, d)
  }

  /** `strftime("%Y-%m-%d")` of the date with the given ordinal. */
  function DateText(ordinal: int): string {
    var (y, m, d) := CivilFromOrdinal(ordinal);
    FixedDigits(y, 4) + "-" + FixedDigits(m, 2) + "-" + FixedDigits(d, 2)
  }

  /** Months and days stay in their calendar ranges. */
  lemma CivilFromOrdinalRanges(ordinal: int)
    ensures var (y, m, d) := CivilFromOrdinal(ordinal);
      1 <= m <= 12 && 1 <= d <= 31
  {
  }

  /** The first day of the calendar. */
  lemma CivilFromOrdinalFirstDay()
    ensures CivilFromOrdinal(1) == (1, 1, 1)
  {
    assert 306 / 146097 == 0;
    assert 306 / 365 == 0 && 306 / 1460 == 0 && 306 / 36524 == 0 && 306 / 146096 == 0;
    assert 1532 / 153 == 10 && 1532 / 5 == 306;
  }

  /**
   * For a year of at most four digits, each field is the number's decimal text
   * left-padded with zeros, to width 4 for the year and 2 for month and day.
   */
  lemma DateTextPads(ordinal: int)
    requires 0 <= CivilFromOrdinal(ordinal).0 < 10000
    ensures var (y, m, d) := CivilFromOrdinal(ordinal);
      DateText(ordinal)
        == ZeroPad(IntToString(y), 4) + "-" + ZeroPad(IntToString(m), 2) + "-" + ZeroPad(IntToString(d), 2)
  {
    var (y, m, d) := CivilFromOrdinal(ordinal);
    CivilFromOrdinalRanges(ordinal);
    assert Pow10(4) == 10000 && Pow10(2) == 100;
    FixedDigitsPadsDecimal(y, 4);
    FixedDigitsPadsDecimal(m, 2);
    FixedDigitsPadsDecimal(d, 2);
  }

  /** Day 1 prints with the year padded to four digits. */
  lemma DateTextFirstDay()
    ensures DateText(1) == "0001" + "-" + "01" + "-" + "01"
  {
    CivilFromOrdinalFirstDay();
    DateTextPads(1);
    PadOne();
  }

  lemma PadOne()
    ensures ZeroPad(IntToString(1), 4) == "0001" && ZeroPad(IntToString(1), 2) == "01"
  {
    assert IntToString(1) == "1";
    assert seq(3, _ => '0') == "000";
    assert seq(1, _ => '0') == "0";
  }

  /** Leap day 2024-02-29 and the day after it, 2024-03-01. */
  lemma CivilFromOrdinalLeapDay()
    ensures CivilFromOrdinal(738945) == (2024, 2, 29)
    ensures CivilFromOrdinal(738946) == (2024, 3, 1)
  {
    assert 739250 / 146097 == 5 && 739251 / 146097 == 5;
    assert 8765 / 1460 == 6 && 8765 / 36524 == 0 && 8765 / 146096 == 0 && 8759 / 365 == 23;
    assert 8766 / 1460 == 6 && 8766 / 36524 == 0 && 8766 / 146096 == 0 && 8760 / 365 == 24;
    assert 23 / 4 == 5 && 23 / 100 == 0 && 24 / 4 == 6 && 24 / 100 == 0;
    assert 1827 / 153 == 11 && 1685 / 5 == 337;
    assert 2 / 153 == 0 && 2 / 5 == 0;
  }

  /** The day after the 2024 leap day prints as "2024-03-01". */
  lemma DateTextLeapDayAfter()
    ensures DateText(738946) == "2024-03-01"
  {
    CivilFromOrdinalLeapDay();
    assert FixedDigits(2, 1) == "2";
    assert FixedDigits(20, 2) == "20";
    assert FixedDigits(202, 3) == "202";
    assert FixedDigits(2024, 4) == "2024";
    assert FixedDigits(3, 2) == "03";
    assert FixedDigits(1, 2) == "01";
  }
}
