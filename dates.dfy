// The calendar date the entities carry (chrono's `NaiveDate`) and its
// rendering with `format("%Y-%m-%d")`, which is also what its `Display`
// (`to_string()`) prints. A year from 0 to 9999 is written with four digits;
// any other year with its sign and at least four digits.

module Dates {

  datatype NaiveDate = NaiveDate(year: int, month: int, day: int)

  predicate IsLeapYear(y: int)
  {
    y % 4 == 0 && (y % 100 != 0 || y % 400 == 0)
  }

  function DaysInMonth(y: int, m: int): int
    requires 1 <= m <= 12
  {
    if m == 2 then (if IsLeapYear(y) then 29 else 28)
    else if m == 4 || m == 6 || m == 9 || m == 11 then 30
    else 31
  }

  /** A date of the proleptic Gregorian calendar, as `NaiveDate` guarantees. */
  predicate ValidDate(d: NaiveDate)
  {
    1 <= d.month <= 12 && 1 <= d.day <= DaysInMonth(d.year, d.month)
  }

  type Date = d: NaiveDate | ValidDate(d) witness NaiveDate(1970, 1, 1)

  predicate IsAsciiDigit(c: char)
  {
    '0' <= c <= '9'
  }

  function DigitChar(n: nat): (c: char)
    requires n < 10
    ensures IsAsciiDigit(c)
  {
    ('0' as int + n) as char
  }

  function DigitValue(c: char): (n: nat)
    requires IsAsciiDigit(c)
    ensures n < 10 && DigitChar(n) == c
  {
    c as int - '0' as int
  }

  /** The decimal numeral of `n`, most significant digit first, no leading zero. */
  function Decimal(n: nat): (s: string)
    ensures 1 <= |s| && forall i :: 0 <= i < |s| ==> IsAsciiDigit(s[i])
  {
    if n < 10 then [DigitChar(n)] else Decimal(n / 10) + [DigitChar(n % 10)]
  }

  function Zeros(k: nat): (s: string)
    ensures |s| == k && forall i :: 0 <= i < k ==> s[i] == '0'
  {
    if k == 0 then [] else Zeros(k - 1) + ['0']
  }

  /** Left-pads `s` with zeros to `width` characters; longer numerals are kept whole. */
  function ZeroPad(s: string, width: nat): (r: string)
    ensures |r| == if |s| < width then width else |s|
  {
    if |s| < width then Zeros(width - |s|) + s else s
  }

  /** The numeric value of a string of ASCII digits. */
  function ValueOf(s: string): nat
    requires forall i :: 0 <= i < |s| ==> IsAsciiDigit(s[i])
  {
    if s == [] then 0 else ValueOf(s[..|s| - 1]) * 10 + DigitValue(s[|s| - 1])
  }

  /** `%Y`: at least four characters; a sign only outside 0..=9999. */
  function FormatYear(y: int): (r: string)
    ensures |r| >= 4
    ensures r[0] == '-' <==> y < 0
    ensures r[0] == '+' <==> y > 9999
  {
    if 0 <= y <= 9999 then ZeroPad(Decimal(y), 4)
    else if y < 0 then "-" + ZeroPad(Decimal(-y), 4)
    else "+" + ZeroPad(Decimal(y), 4)
  }

  /** `%Y-%m-%d`: the year, then month and day as exactly two characters
      each, so the two dashes sit six and three places from the end. */
  function Format(d: Date): (r: string)
    ensures |r| == |FormatYear(d.year)| + 6
    ensures r[|r| - 6] == '-' && r[|r| - 3] == '-'
  {
    assert Pow10(2) == 100;
    DecimalLength(d.month, 2);
    DecimalLength(d.day, 2);
    FormatYear(d.year) + "-" + ZeroPad(Decimal(d.month), 2) + "-" + ZeroPad(Decimal(d.day), 2)
  }

  function Pow10(k: nat): (p: nat)
    ensures p >= 1
  {
    if k == 0 then 1 else 10 * Pow10(k - 1)
  }

  /** A number below `10^k` has at most `k` digits. */
  lemma {:induction false} DecimalLength(n: nat, k: nat)
    requires 1 <= k && n < Pow10(k)
    ensures |Decimal(n)| <= k
  {
    if n >= 10 {
      assert Pow10(1) == 10;
      assert n / 10 < Pow10(k - 1);
      DecimalLength(n / 10, k - 1);
    }
  }

  /** Reading a numeral back gives the number. */
  lemma {:induction false} DecimalValue(n: nat)
    ensures ValueOf(Decimal(n)) == n
  {
    var s := Decimal(n);
    if n >= 10 {
      DecimalValue(n / 10);
      assert s[..|s| - 1] == Decimal(n / 10);
    }
  }

  /** Leading zeros do not change the value. */
  lemma {:induction false} ZerosValue(k: nat, s: string)
    requires forall i :: 0 <= i < |s| ==> IsAsciiDigit(s[i])
    ensures forall i :: 0 <= i < |Zeros(k) + s| ==> IsAsciiDigit((Zeros(k) + s)[i])
    ensures ValueOf(Zeros(k) + s) == ValueOf(s)
  {
    if s == [] {
      ZerosOnly(k);
      assert Zeros(k) + s == Zeros(k);
    } else {
      var t := Zeros(k) + s;
      ZerosValue(k, s[..|s| - 1]);
      assert t[..|t| - 1] == Zeros(k) + s[..|s| - 1];
    }
  }

  lemma {:induction false} ZerosOnly(k: nat)
    ensures ValueOf(Zeros(k)) == 0
  {
    if k > 0 {
      ZerosOnly(k - 1);
      assert Zeros(k)[..k - 1] == Zeros(k - 1);
    }
  }

  /** A padded numeral of a number that fits is exactly `width` digits and reads back as the number. */
  lemma PaddedRoundTrip(n: nat, width: nat)
    requires 1 <= width && n < Pow10(width)
    ensures |ZeroPad(Decimal(n), width)| == width
    ensures forall i :: 0 <= i < width ==> IsAsciiDigit(ZeroPad(Decimal(n), width)[i])
    ensures ValueOf(ZeroPad(Decimal(n), width)) == n
  {
    DecimalLength(n, width);
    DecimalValue(n);
    if |Decimal(n)| < width {
      ZerosValue(width - |Decimal(n)|, Decimal(n));
    }
  }

  /** A number of at least `10^k` has more than `k` digits. */
  lemma {:induction false} DecimalLengthAtLeast(n: nat, k: nat)
    requires n >= Pow10(k)
    ensures |Decimal(n)| > k
  {
    if k > 0 {
      assert n / 10 >= Pow10(k - 1);
      DecimalLengthAtLeast(n / 10, k - 1);
    }
  }

  /** `%Y-%m-%d` gives ten characters exactly when the year lies in 0..=9999;
      other years are written longer. */
  lemma FormatWidth(d: Date)
    ensures |Format(d)| == 10 <==> 0 <= d.year <= 9999
  {
    assert Pow10(2) == 100 && Pow10(4) == 10000;
    PaddedRoundTrip(d.month, 2);
    PaddedRoundTrip(d.day, 2);
    if 0 <= d.year <= 9999 {
      PaddedRoundTrip(d.year, 4);
    } else if d.year > 9999 {
      DecimalLengthAtLeast(d.year, 4);
    }
  }

  /** Where the three fields of `Y-M-D` sit, for a four-character year and
      two-character month and day. */
  lemma DashedLayout(y: string, m: string, dd: string)
    requires |y| == 4 && |m| == 2 && |dd| == 2
    ensures |y + "-" + m + "-" + dd| == 10
    ensures (y + "-" + m + "-" + dd)[4] == '-' && (y + "-" + m + "-" + dd)[7] == '-'
    ensures (y + "-" + m + "-" + dd)[0..4] == y
    ensures (y + "-" + m + "-" + dd)[5..7] == m
    ensures (y + "-" + m + "-" + dd)[8..10] == dd
  {
    var s := y + "-" + m + "-" + dd;
    assert s[0..4] == y;
    assert s[5..7] == m;
    assert s[8..10] == dd;
  }

  /** For a four-digit year, the rendered date is `YYYY-MM-DD`: digits with a
      dash at positions 4 and 7, and its three fields read back as the year,
      month and day that were stored. */
  lemma FormatLayout(d: Date)
    requires 0 <= d.year <= 9999
    ensures |Format(d)| == 10 && Format(d)[4] == '-' && Format(d)[7] == '-'
    ensures forall i :: 0 <= i < 10 && i != 4 && i != 7 ==> IsAsciiDigit(Format(d)[i])
    ensures ValueOf(Format(d)[0..4]) == d.year
    ensures ValueOf(Format(d)[5..7]) == d.month
    ensures ValueOf(Format(d)[8..10]) == d.day
  {
    assert Pow10(2) == 100 && Pow10(4) == 10000;
    var y, m, dd := ZeroPad(Decimal(d.year), 4), ZeroPad(Decimal(d.month), 2), ZeroPad(Decimal(d.day), 2);
    PaddedRoundTrip(d.year, 4);
    PaddedRoundTrip(d.month, 2);
    PaddedRoundTrip(d.day, 2);
    DashedLayout(y, m, dd);
    var s := Format(d);
    forall i | 0 <= i < 10 && i != 4 && i != 7 ensures IsAsciiDigit(s[i]) {
      if i < 4 { assert s[i] == s[0..4][i]; }
      else if i < 7 { assert s[i] == s[5..7][i - 5]; }
      else { assert s[i] == s[8..10][i - 8]; }
    }
  }
}
