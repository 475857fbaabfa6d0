// The period keys the report views group completed tasks by: the day
// (`toISOString().slice(0, 10)`), the week ("<year>-H<week>") and the
// month ("<year>-<month, two places>"), and the text order the views sort
// them in.
module Periods {
  import opened Text
  import Lists

  datatype Period = Daily | Weekly | Monthly

  /**
   * What `new Date(completionDate)` gives the keys: the local year, the
   * month (1 to 12), the whole days since 1 January, the weekday of
   * 1 January (0 for Sunday) and the ISO text of the instant.
   */
  datatype CalendarDate = CalendarDate(year: nat, month: nat, dayOfYear: nat, jan1Weekday: nat, iso: string)

  /** A date the calendar can produce, with a four-digit year. */
  predicate ValidDate(d: CalendarDate)
  {
    1000 <= d.year < 10000 && 1 <= d.month <= 12 && d.dayOfYear < 366 && d.jan1Weekday < 7
  }

  /** `Math.ceil((days + jan1.getDay() + 1) / 7)`. */
  function WeekOfYear(d: CalendarDate): (w: nat)
    ensures 7 * w - 7 < d.dayOfYear + d.jan1Weekday + 1 <= 7 * w
    ensures ValidDate(d) ==> 1 <= w <= 54
  {
    (d.dayOfYear + d.jan1Weekday + 1 + 6) / 7
  }

  /** The daily key: the first ten characters of the ISO text. */
  function DayKey(d: CalendarDate): (r: string)
    ensures |r| == if |d.iso| < 10 then |d.iso| else 10
    ensures r == d.iso[..|r|]
  {
    if |d.iso| >= 10 then d.iso[..10] else d.iso
  }

  /** The weekly key as the views build it: the week number is not padded. */
  function WeekKeyAsWritten(d: CalendarDate): string
  {
    NatToString(d.year) + "-H" + NatToString(WeekOfYear(d))
  }

  /** The weekly key with the week padded to two places, as the month is. */
  function WeekKey(d: CalendarDate): string
  {
    NumberedKey(d.year, "-H", WeekOfYear(d))
  }

  function MonthKey(d: CalendarDate): string
  {
    NumberedKey(d.year, "-", d.month)
  }

  /** Dates of the same week of the same year share their weekly key. */
  lemma SameWeekSameKey(d1: CalendarDate, d2: CalendarDate)
    requires d1.year == d2.year && WeekOfYear(d1) == WeekOfYear(d2)
    ensures WeekKeyAsWritten(d1) == WeekKeyAsWritten(d2) && WeekKey(d1) == WeekKey(d2)
  {
  }

  /** The grouping key of the views as written. */
  function PeriodKeyAsWritten(p: Period, d: CalendarDate): string
  {
    match p
    case Daily => DayKey(d)
    case Weekly => WeekKeyAsWritten(d)
    case Monthly => MonthKey(d)
  }

  /** The grouping key with padded weeks. */
  function PeriodKey(p: Period, d: CalendarDate): string
  {
    match p
    case Daily => DayKey(d)
    case Weekly => WeekKey(d)
    case Monthly => MonthKey(d)
  }

  /** `groupBy`: the key of a completion date, read by `dateOf`. */
  function GroupBy(p: Period, dateOf: string -> CalendarDate): string -> string
  {
    (date: string) => PeriodKey(p, dateOf(date))
  }

  function GroupByAsWritten(p: Period, dateOf: string -> CalendarDate): string -> string
  {
    (date: string) => PeriodKeyAsWritten(p, dateOf(date))
  }

  /** The number a weekly or monthly key counts within its year. */
  function IndexInYear(p: Period, d: CalendarDate): nat
  {
    if p == Weekly then WeekOfYear(d) else if p == Monthly then d.month else d.dayOfYear
  }

  /** The month key reads back as the year, a dash and the month. */
  lemma MonthKeyReadsBack(d: CalendarDate)
    requires ValidDate(d)
    ensures var k := MonthKey(d);
      |k| == 7 && ParseDecimal(k[..4]) == d.year && k[4] == '-' && ParseDecimal(k[5..]) == d.month
  {
    var k := MonthKey(d);
    FourDigits(d.year);
    ParseNatToString(d.year);
    ParsePadded(d.month);
    assert k[..4] == NatToString(d.year);
    assert k[5..] == PadStart2(NatToString(d.month));
  }

  /** The week number of a weekly key reads back after "-H". */
  lemma WeekKeyReadsBack(d: CalendarDate)
    requires ValidDate(d)
    ensures var k := WeekKey(d);
      |k| == 8 && ParseDecimal(k[..4]) == d.year && k[4..6] == "-H" && ParseDecimal(k[6..]) == WeekOfYear(d)
  {
    var k := WeekKey(d);
    FourDigits(d.year);
    ParseNatToString(d.year);
    ParsePadded(WeekOfYear(d));
    assert k[..4] == NatToString(d.year);
    assert k[6..] == PadStart2(NatToString(WeekOfYear(d)));
  }

  /**
   * Weekly and monthly keys with padded numbers sort as text in calendar
   * order: first by year, then by week or month.
   */
  lemma KeysFollowCalendar(p: Period, d1: CalendarDate, d2: CalendarDate)
    requires p != Daily && ValidDate(d1) && ValidDate(d2)
    ensures StrLe(PeriodKey(p, d1), PeriodKey(p, d2)) <==>
      d1.year < d2.year || (d1.year == d2.year && IndexInYear(p, d1) <= IndexInYear(p, d2))
  {
    if p == Weekly {
      NumberedKeyOrder(d1.year, d2.year, "-H", WeekOfYear(d1), WeekOfYear(d2));
    } else {
      NumberedKeyOrder(d1.year, d2.year, "-", d1.month, d2.month);
    }
  }

  /**
   * Without the padding, week 10 sorts before week 9 of the same year (and
   * week 9 after week 10): "…-H10" < "…-H9" as text.
   */
  lemma UnpaddedWeeksMisorder(d9: CalendarDate, d10: CalendarDate)
    requires d9.year == d10.year && WeekOfYear(d9) == 9 && WeekOfYear(d10) == 10
    ensures StrLe(WeekKeyAsWritten(d10), WeekKeyAsWritten(d9))
    ensures !StrLe(WeekKeyAsWritten(d9), WeekKeyAsWritten(d10))
  {
    var prefix := NatToString(d9.year) + "-H";
    assert NatToString(9) == "9";
    assert NatToString(10) == "10" by {
      assert NatToString(1) == "1" && NatToString(0) == "0";
    }
    StrLeSamePrefix(prefix, "10", "9");
    StrLeSamePrefix(prefix, "9", "10");
    assert StrLe("10", "9");
    assert !StrLe("9", "10");
  }

  /** The code-unit order is a valid sort comparator. */
  lemma StrLeIsTotalPreorder()
    ensures Lists.IsTotalPreorder(StrLe)
  {
    forall a, b ensures StrLe(a, b) || StrLe(b, a) {
      StrLeTotal(a, b);
    }
    forall a, b, c | StrLe(a, b) && StrLe(b, c) ensures StrLe(a, c) {
      StrLeTransitive(a, b, c);
    }
  }
}
