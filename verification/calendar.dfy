/** Proleptic Gregorian calendar dates in the range of Python's `date`
    (years 1 to 9999): validity, day arithmetic, day numbers and the
    `YYYY-MM-DD` and `MM/DD` renderings. */
module Calendar {
  import opened Optional
  import opened Text

  datatype Date = Date(year: int, month: int, day: int)

  const MinYear := 1
  const MaxYear := 9999

  predicate IsLeapYear(y: int) {
    y % 4 == 0 && (y % 100 != 0 || y % 400 == 0)
  }

  function DaysInMonth(y: int, m: int): (n: int)
    requires 1 <= m <= 12
    ensures 28 <= n <= 31
    ensures n == 29 <==> m == 2 && IsLeapYear(y)
  {
    if m == 2 then (if IsLeapYear(y) then 29 else 28)
    else if m == 4 || m == 6 || m == 9 || m == 11 then 30
    else 31
  }

  function DaysInYear(y: int): int {
    if IsLeapYear(y) then 366 else 365
  }

  predicate Valid(d: Date) {
    && MinYear <= d.year <= MaxYear
    && 1 <= d.month <= 12
    && 1 <= d.day <= DaysInMonth(d.year, d.month)
  }

  /** `d` falls strictly before `e` in calendar order. */
  predicate Before(d: Date, e: Date) {
    || d.year < e.year
    || (d.year == e.year && d.month < e.month)
    || (d.year == e.year && d.month == e.month && d.day < e.day)
  }

  /** The first day of the month `d` falls in: `d.replace(day=1)`. */
  function FirstOfMonth(d: Date): (r: Date)
    requires Valid(d)
    ensures Valid(r) && r.day == 1
    ensures r.year == d.year && r.month == d.month
  {
    d.(day := 1)
  }

  // ---------------------------------------------------------------------
  // Day numbers (`date.toordinal`): 0001-01-01 is day 1.

  function DaysBeforeYear(y: int): int
    requires y >= 1
  {
    var p := y - 1;
    p * 365 + p / 4 - p / 100 + p / 400
  }

  function DaysBeforeMonth(y: int, m: int): int
    requires 1 <= m <= 12
  {
    var table := [0, 31, 59, 90, 120, 151, 181, 212, 243, 273, 304, 334];
    table[m - 1] + (if m > 2 && IsLeapYear(y) then 1 else 0)
  }

  function Ordinal(d: Date): int
    requires Valid(d)
  {
    DaysBeforeYear(d.year) + DaysBeforeMonth(d.year, d.month) + d.day
  }

  lemma DivStep4(p: nat)
    ensures (p + 1) / 4 == p / 4 + (if (p + 1) % 4 == 0 then 1 else 0)
  {
  }

  lemma DivStep100(p: nat)
    ensures (p + 1) / 100 == p / 100 + (if (p + 1) % 100 == 0 then 1 else 0)
  {
  }

  lemma DivStep400(p: nat)
    ensures (p + 1) / 400 == p / 400 + (if (p + 1) % 400 == 0 then 1 else 0)
  {
  }

  /** The three divisibility terms of the day count add up to one extra
      day exactly in leap years. */
  lemma Multiple400Is100(y: int)
    requires y % 400 == 0
    ensures y % 100 == 0
  {
    var k := y / 400;
    assert y == 100 * (4 * k);
  }

  lemma Multiple100Is4(y: int)
    requires y % 100 == 0
    ensures y % 4 == 0
  {
    var k := y / 100;
    assert y == 4 * (25 * k);
  }

  /** The three divisibility indicators of the Gregorian rule add up to the leap indicator. */
  lemma LeapIndicators(y: int)
    requires y >= 1
    ensures (if y % 4 == 0 then 1 else 0) - (if y % 100 == 0 then 1 else 0)
            + (if y % 400 == 0 then 1 else 0) == (if IsLeapYear(y) then 1 else 0)
  {
    if y % 400 == 0 {
      Multiple400Is100(y);
      Multiple100Is4(y);
    } else if y % 100 == 0 {
      Multiple100Is4(y);
    }
  }

  lemma DaysBeforeYearStep(y: int)
    requires y >= 1
    ensures DaysBeforeYear(y + 1) == DaysBeforeYear(y) + DaysInYear(y)
  {
    var p := y - 1;
    DivStep4(p);
    DivStep100(p);
    DivStep400(p);
    LeapIndicators(y);
    assert DaysBeforeYear(y + 1) == (p + 1) * 365 + (p + 1) / 4 - (p + 1) / 100 + (p + 1) / 400;
    assert (p + 1) * 365 == p * 365 + 365;
  }

  lemma {:induction false} DaysBeforeYearMonotone(y: int, z: int)
    requires 1 <= y < z
    ensures DaysBeforeYear(y) + DaysInYear(y) <= DaysBeforeYear(z)
    decreases z - y
  {
    DaysBeforeYearStep(y);
    if y + 1 < z {
      DaysBeforeYearMonotone(y + 1, z);
    }
  }

  lemma DaysBeforeMonthStep(y: int, m: int)
    requires 1 <= m <= 12
    ensures m < 12 ==> DaysBeforeMonth(y, m + 1) == DaysBeforeMonth(y, m) + DaysInMonth(y, m)
    ensures m == 12 ==> DaysBeforeMonth(y, m) + DaysInMonth(y, m) == DaysInYear(y)
  {
  }

  lemma {:induction false} DaysBeforeMonthMonotone(y: int, m: int, n: int)
    requires 1 <= m < n <= 12
    ensures DaysBeforeMonth(y, m) + DaysInMonth(y, m) <= DaysBeforeMonth(y, n)
    decreases n - m
  {
    DaysBeforeMonthStep(y, m);
    if m + 1 < n {
      DaysBeforeMonthMonotone(y, m + 1, n);
    }
  }

  /** Every day of a year gets a day number inside that year's block. */
  lemma OrdinalWithinYear(d: Date)
    requires Valid(d)
    ensures DaysBeforeYear(d.year) < Ordinal(d) <= DaysBeforeYear(d.year) + DaysInYear(d.year)
  {
    if d.month < 12 {
      DaysBeforeMonthMonotone(d.year, d.month, 12);
    }
    DaysBeforeMonthStep(d.year, 12);
  }

  /** Day numbers order dates exactly as the calendar does; in particular
      two valid dates with the same day number are the same date. */
  lemma OrdinalOrder(d: Date, e: Date)
    requires Valid(d) && Valid(e)
    ensures Ordinal(d) < Ordinal(e) <==> Before(d, e)
    ensures Ordinal(d) == Ordinal(e) <==> d == e
  {
    forall a: Date, b: Date | Valid(a) && Valid(b) && Before(a, b)
      ensures Ordinal(a) < Ordinal(b)
    {
      if a.year < b.year {
        OrdinalWithinYear(a);
        OrdinalWithinYear(b);
        DaysBeforeYearMonotone(a.year, b.year);
      } else if a.month < b.month {
        DaysBeforeMonthMonotone(a.year, a.month, b.month);
      }
    }
  }

  /** The calendar day before `d`: `d - timedelta(days=1)`, which overflows
      (`None` here) only for the first representable date. */
  function PrevDay(d: Date): (r: Option<Date>)
    requires Valid(d)
    ensures r.None? <==> d == Date(MinYear, 1, 1)
    ensures r.Some? ==> Valid(r.value)
  {
    if d.day > 1 then Some(d.(day := d.day - 1))
    else if d.month > 1 then Some(Date(d.year, d.month - 1, DaysInMonth(d.year, d.month - 1)))
    else if d.year > MinYear then Some(Date(d.year - 1, 12, 31))
    else None
  }

  /** `PrevDay` yields the date whose day number is one less, and that date
      is the only one: there is no valid date strictly between the two. */
  lemma PrevDayIsPredecessor(d: Date)
    requires Valid(d) && d != Date(MinYear, 1, 1)
    ensures Ordinal(PrevDay(d).value) == Ordinal(d) - 1
    ensures Before(PrevDay(d).value, d)
    ensures forall e: Date :: Valid(e) && Before(e, d) ==> !Before(PrevDay(d).value, e)
  {
    var p := PrevDay(d).value;
    if d.day == 1 && d.month > 1 {
      DaysBeforeMonthStep(d.year, d.month - 1);
    } else if d.day == 1 {
      DaysBeforeYearStep(d.year - 1);
      DaysBeforeMonthStep(d.year - 1, 12);
    }
    OrdinalOrder(p, d);
    forall e: Date | Valid(e) && Before(e, d) ensures !Before(p, e) {
      OrdinalOrder(e, d);
      OrdinalOrder(p, e);
    }
  }

  /** Day 1 is the first representable date, so `PrevDay` fails exactly
      where no earlier date exists. */
  lemma OrdinalAtLeastOne(d: Date)
    requires Valid(d)
    ensures Ordinal(d) >= 1
    ensures Ordinal(d) == 1 <==> d == Date(MinYear, 1, 1)
  {
    OrdinalOrder(Date(MinYear, 1, 1), d);
  }

  // ---------------------------------------------------------------------
  // Renderings.

  /** `date.isoformat()`: `YYYY-MM-DD`, each field zero-padded. */
  function IsoFormat(d: Date): (s: string)
    requires Valid(d)
    ensures |s| == 10 && s[4] == '-' && s[7] == '-'
  {
    Pow10Add(2, 2);
    PaddedDigits(d.year, 4) + "-" + PaddedDigits(d.month, 2) + "-" + PaddedDigits(d.day, 2)
  }

  /** `datetime.strptime(s, '%Y-%m-%d')` on the zero-padded form: the
      string must name a real calendar date. */
  function ParseIso(s: string): (r: Option<Date>)
    ensures r.Some? ==> Valid(r.value)
    ensures r.Some? ==> |s| == 10 && s[4] == '-' && s[7] == '-'
  {
    if |s| == 10 && s[4] == '-' && s[7] == '-'
       && AllDigits(s[..4]) && AllDigits(s[5..7]) && AllDigits(s[8..])
    then
      var d := Date(DigitsValue(s[..4]), DigitsValue(s[5..7]), DigitsValue(s[8..]));
      if Valid(d) then Some(d) else None
    else None
  }

  /** Parsing a rendered date gives the date back. */
  lemma IsoRoundTrip(d: Date)
    requires Valid(d)
    ensures ParseIso(IsoFormat(d)) == Some(d)
  {
    Pow10Add(2, 2);
    var y, m, dd := PaddedDigits(d.year, 4), PaddedDigits(d.month, 2), PaddedDigits(d.day, 2);
    var s := IsoFormat(d);
    assert s[..4] == y;
    assert s[5..7] == m;
    assert s[8..] == dd;
  }

  /** Every string the parser accepts is the rendering of what it parsed
      to: together with `IsoRoundTrip`, parsing and rendering are inverse. */
  lemma IsoCanonical(s: string)
    requires ParseIso(s).Some?
    ensures IsoFormat(ParseIso(s).value) == s
  {
    PaddedDigitsOfValue(s[..4]);
    PaddedDigitsOfValue(s[5..7]);
    PaddedDigitsOfValue(s[8..]);
    assert s == s[..4] + "-" + s[5..7] + "-" + s[8..];
  }

  /** Distinct valid dates render differently, so comparing the ISO strings
      compares the dates. */
  lemma IsoInjective(d: Date, e: Date)
    requires Valid(d) && Valid(e)
    ensures IsoFormat(d) == IsoFormat(e) <==> d == e
  {
    IsoRoundTrip(d);
    IsoRoundTrip(e);
  }

  /** `strftime('%m/%d')`. */
  function MonthDay(d: Date): (s: string)
    requires Valid(d)
    ensures |s| == 5 && s[2] == '/'
  {
    PaddedDigits(d.month, 2) + "/" + PaddedDigits(d.day, 2)
  }

  /** Reads an `MM/DD` text back as (month, day). */
  function ParseMonthDay(s: string): Option<(int, int)> {
    if |s| == 5 && s[2] == '/' && AllDigits(s[..2]) && AllDigits(s[3..])
    then Some((DigitsValue(s[..2]), DigitsValue(s[3..])))
    else None
  }

  /** `MM/DD` loses nothing but the year. */
  lemma MonthDayRoundTrip(d: Date)
    requires Valid(d)
    ensures ParseMonthDay(MonthDay(d)) == Some((d.month, d.day))
  {
    var s := MonthDay(d);
    assert s[..2] == PaddedDigits(d.month, 2);
    assert s[3..] == PaddedDigits(d.day, 2);
  }
}
