/**
 * Proleptic Gregorian calendar dates for day numbers (days since
 * 1970-01-01), and the `YYYY-MM-DD` text that `toISOString().split('T')[0]`
 * gives for a date.
 */
module Calendar {
  import opened Wrappers
  import opened Decimal

  datatype CivilDate = CivilDate(year: int, month: int, day: int)

  predicate IsLeapYear(y: int) {
    y % 4 == 0 && (y % 100 != 0 || y % 400 == 0)
  }

  function DaysInYear(y: int): int {
    if IsLeapYear(y) then 366 else 365
  }

  function DaysInMonth(y: int, m: int): int
    requires 1 <= m <= 12
  {
    if m == 2 then (if IsLeapYear(y) then 29 else 28)
    else if m == 4 || m == 6 || m == 9 || m == 11 then 30
    else 31
  }

  predicate ValidDate(d: CivilDate) {
    1 <= d.month <= 12 && 1 <= d.day <= DaysInMonth(d.year, d.month)
  }

  /** Day number of January 1st of year `y`. */
  function DaysBeforeYear(y: int): int {
    var p := y - 1;
    365 * p + p / 4 - p / 100 + p / 400 - 719162
  }

  /** Days from January 1st to the first of month `m`. */
  function DaysBeforeMonth(y: int, m: int): int
    requires 1 <= m <= 12
  {
    [0, 31, 59, 90, 120, 151, 181, 212, 243, 273, 304, 334][m - 1]
      + (if m > 2 && IsLeapYear(y) then 1 else 0)
  }

  /** The day number of a date. */
  function DaysFromCivil(d: CivilDate): int
    requires 1 <= d.month <= 12
  {
    DaysBeforeYear(d.year) + DaysBeforeMonth(d.year, d.month) + d.day - 1
  }

  lemma DaysBeforeNextYear(y: int)
    ensures DaysBeforeYear(y + 1) == DaysBeforeYear(y) + DaysInYear(y)
  {
    var p := y - 1;
    assert p / 4 + (if y % 4 == 0 then 1 else 0) == y / 4;
    assert p / 100 + (if y % 100 == 0 then 1 else 0) == y / 100;
    assert p / 400 + (if y % 400 == 0 then 1 else 0) == y / 400;
  }

  lemma DaysBeforeNextMonth(y: int, m: int)
    requires 1 <= m <= 12
    ensures m < 12 ==> DaysBeforeMonth(y, m + 1) == DaysBeforeMonth(y, m) + DaysInMonth(y, m)
    ensures m == 12 ==> DaysBeforeMonth(y, m) + DaysInMonth(y, m) == DaysInYear(y)
  {
  }

  lemma {:induction false} DaysBeforeYearMonotone(a: int, b: int)
    requires a < b
    ensures DaysBeforeYear(a + 1) <= DaysBeforeYear(b)
    decreases b - a
  {
    if a + 1 < b {
      DaysBeforeNextYear(b - 1);
      DaysBeforeYearMonotone(a, b - 1);
    }
  }

  lemma {:induction false} DaysBeforeMonthMonotone(y: int, a: int, b: int)
    requires 1 <= a < b <= 12
    ensures DaysBeforeMonth(y, a) + DaysInMonth(y, a) <= DaysBeforeMonth(y, b)
    decreases b - a
  {
    DaysBeforeNextMonth(y, a);
    if a + 1 < b {
      DaysBeforeMonthMonotone(y, a + 1, b);
    }
  }

  /** The year holding day `n`, searching upwards from year `y`. */
  function YearOnOrAfter(n: int, y: int): (r: int)
    requires DaysBeforeYear(y) <= n
    ensures y <= r
    ensures DaysBeforeYear(r) <= n < DaysBeforeYear(r + 1)
    decreases n - DaysBeforeYear(y)
  {
    DaysBeforeNextYear(y);
    if n < DaysBeforeYear(y + 1) then y else YearOnOrAfter(n, y + 1)
  }

  /** The year holding day `n`, searching downwards from year `y`. */
  function YearOnOrBefore(n: int, y: int): (r: int)
    requires n < DaysBeforeYear(y + 1)
    ensures r <= y
    ensures DaysBeforeYear(r) <= n < DaysBeforeYear(r + 1)
    decreases DaysBeforeYear(y + 1) - n
  {
    DaysBeforeNextYear(y);
    if DaysBeforeYear(y) <= n then y else YearOnOrBefore(n, y - 1)
  }

  /** The month holding day `doy` (0-based) of year `y`, searching upwards from `m`. */
  function MonthFrom(y: int, doy: int, m: int): (r: int)
    requires 1 <= m <= 12
    requires DaysBeforeMonth(y, m) <= doy < DaysInYear(y)
    ensures m <= r <= 12
    ensures DaysBeforeMonth(y, r) <= doy < DaysBeforeMonth(y, r) + DaysInMonth(y, r)
    decreases 12 - m
  {
    DaysBeforeNextMonth(y, m);
    if m == 12 || doy < DaysBeforeMonth(y, m + 1) then m else MonthFrom(y, doy, m + 1)
  }

  /** The calendar date of a day number. */
  function CivilFromDays(n: int): (d: CivilDate)
    ensures ValidDate(d)
    ensures DaysFromCivil(d) == n
  {
    var y := if 0 <= n then YearOnOrAfter(n, 1970) else YearOnOrBefore(n, 1969);
    var doy := n - DaysBeforeYear(y);
    DaysBeforeNextYear(y);
    var m := MonthFrom(y, doy, 1);
    CivilDate(y, m, doy - DaysBeforeMonth(y, m) + 1)
  }

  /** A valid date lies inside its own year. */
  lemma DateWithinYear(d: CivilDate)
    requires ValidDate(d)
    ensures DaysBeforeYear(d.year) <= DaysFromCivil(d) < DaysBeforeYear(d.year + 1)
  {
    DaysBeforeNextYear(d.year);
    if d.month < 12 {
      DaysBeforeMonthMonotone(d.year, d.month, 12);
    }
    DaysBeforeNextMonth(d.year, 12);
  }

  /** Each day number has one date: the one `CivilFromDays` gives. */
  lemma CivilFromDaysUnique(n: int, d: CivilDate)
    requires ValidDate(d) && DaysFromCivil(d) == n
    ensures CivilFromDays(n) == d
  {
    var c := CivilFromDays(n);
    DateWithinYear(d);
    DateWithinYear(c);
    if c.year < d.year {
      DaysBeforeYearMonotone(c.year, d.year);
    } else if d.year < c.year {
      DaysBeforeYearMonotone(d.year, c.year);
    }
    assert c.year == d.year;
    if c.month < d.month {
      DaysBeforeMonthMonotone(d.year, c.month, d.month);
    } else if d.month < c.month {
      DaysBeforeMonthMonotone(d.year, d.month, c.month);
    }
  }

  /** `s` left-padded with zeros to `width` characters. */
  function PadZeros(s: string, width: nat): (r: string)
    ensures |r| == if |s| < width then width else |s|
    ensures AllDigits(s) ==> AllDigits(r)
    decreases width - |s|
  {
    if |s| < width then PadZeros("0" + s, width) else s
  }

  lemma {:induction false} LeadingZeroValue(s: string)
    requires AllDigits(s)
    ensures AllDigits("0" + s) && DigitsValue("0" + s) == DigitsValue(s)
    decreases |s|
  {
    if s != [] {
      var t := "0" + s;
      assert t[..|t| - 1] == "0" + s[..|s| - 1];
      LeadingZeroValue(s[..|s| - 1]);
    }
  }

  lemma {:induction false} PadZerosValue(s: string, width: nat)
    requires AllDigits(s)
    ensures DigitsValue(PadZeros(s, width)) == DigitsValue(s)
    decreases width - |s|
  {
    if |s| < width {
      LeadingZeroValue(s);
      PadZerosValue("0" + s, width);
    }
  }

  /** A number below `10^k` has at most `k` digits. */
  lemma {:induction false} NatToStringLength(n: nat, k: nat)
    requires k >= 1
    ensures n < Power10(k) ==> |NatToString(n)| <= k
    decreases k
  {
    if n >= 10 && n < Power10(k) {
      NatToStringLength(n / 10, k - 1);
    }
  }

  function Power10(k: nat): nat {
    if k == 0 then 1 else 10 * Power10(k - 1)
  }

  lemma Power10Values()
    ensures Power10(2) == 100 && Power10(4) == 10000 && Power10(6) == 1000000
  {
  }

  /** Reads `YYYY-MM-DD`: four, two and two digits separated by hyphens. */
  function ParseIsoDate(s: string): Option<CivilDate> {
    if |s| == 10 && s[4] == '-' && s[7] == '-'
       && AllDigits(s[..4]) && AllDigits(s[5..7]) && AllDigits(s[8..])
    then Some(CivilDate(DigitsValue(s[..4]), DigitsValue(s[5..7]), DigitsValue(s[8..])))
    else None
  }

  /** The numeral of `n`, left-padded with zeros to at least `width` digits. */
  function PaddedDigits(n: nat, width: nat): (r: string)
    requires width >= 1
    ensures AllDigits(r) && DigitsValue(r) == n && |r| >= width
    ensures n < Power10(width) ==> |r| == width
  {
    NatToStringValue(n);
    PadZerosValue(NatToString(n), width);
    NatToStringLength(n, width);
    PadZeros(NatToString(n), width)
  }

  /**
   * The year as `toISOString` writes it: four digits for 0..9999, otherwise
   * a sign and six digits (more only beyond a million years).
   */
  function YearText(y: int): (r: string)
    ensures 0 <= y <= 9999 ==> |r| == 4 && AllDigits(r) && DigitsValue(r) == y
    ensures !(0 <= y <= 9999) ==>
      && |r| >= 7 && r[0] == (if y < 0 then '-' else '+')
      && AllDigits(r[1..]) && DigitsValue(r[1..]) == (if y < 0 then -y else y)
    ensures !(0 <= y <= 9999) && -1000000 < y < 1000000 ==> |r| == 7
  {
    Power10Values();
    if 0 <= y <= 9999 then
      PaddedDigits(y, 4)
    else
      var digits := PaddedDigits(if y < 0 then -y else y, 6);
      assert ([if y < 0 then '-' else '+'] + digits)[1..] == digits;
      [if y < 0 then '-' else '+'] + digits
  }

  /** For years 0..9999 the pieces of a date join into ten characters that read back as it. */
  lemma DateTextReadsBack(d: CivilDate)
    requires ValidDate(d)
    ensures 0 <= d.year <= 9999 ==>
      var s := YearText(d.year) + "-" + PaddedDigits(d.month, 2) + "-" + PaddedDigits(d.day, 2);
      |s| == 10 && ParseIsoDate(s) == Some(d)
  {
    if 0 <= d.year <= 9999 {
      Power10Values();
      var ys, ms, ds := YearText(d.year), PaddedDigits(d.month, 2), PaddedDigits(d.day, 2);
      var s := ys + "-" + ms + "-" + ds;
      assert s[..4] == ys;
      assert s[5..7] == ms;
      assert s[8..] == ds;
    }
  }

  /** `YYYY-MM-DD`; for years 0..9999 exactly ten characters that read back as the date. */
  function FormatDate(d: CivilDate): (s: string)
    requires ValidDate(d)
    ensures 0 <= d.year <= 9999 ==> |s| == 10 && ParseIsoDate(s) == Some(d)
  {
    DateTextReadsBack(d);
    YearText(d.year) + "-" + PaddedDigits(d.month, 2) + "-" + PaddedDigits(d.day, 2)
  }

  /**
   * `toISOString().split('T')[0]` of local midnight on day `n`: for years
   * 0..9999 ten characters that read back as the date of day `n`.
   */
  function IsoDate(n: int): (s: string)
    ensures 0 <= CivilFromDays(n).year <= 9999 ==>
      && |s| == 10
      && ParseIsoDate(s) == Some(CivilFromDays(n))
      && DaysFromCivil(ParseIsoDate(s).value) == n
  {
    FormatDate(CivilFromDays(n))
  }

  lemma IsoDateExamples()
    ensures IsoDate(0) == "1970-01-01"
    ensures IsoDate(20741) == "2026-10-15"
  {
    CivilFromDaysUnique(0, CivilDate(1970, 1, 1));
    CivilFromDaysUnique(20741, CivilDate(2026, 10, 15));
  }
}
