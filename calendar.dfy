/** Calendar dates as Python's proleptic Gregorian ordinals
    (`date.toordinal()`: 0001-01-01 is day 1).  `today - timedelta(days=k)`
    is `today - k`, `d.weekday()` is `Weekday(d)` and `d.year`, `d.month`,
    `d.day` come from `Civil(d)`. */
module Calendar {

  type Date = int

  datatype YearMonthDay = YearMonthDay(year: int, month: int, day: int)

  /** Python's `date.weekday()`: Monday is 0, Sunday is 6. */
  function Weekday(d: Date): (w: int)
    ensures 0 <= w <= 6
    ensures w == 0 <==> d % 7 == 1
  {
    (d + 6) % 7
  }

  /** The Monday of the week of `d` (`d - timedelta(days=d.weekday())`). */
  function MondayOf(d: Date): (m: Date)
    ensures Weekday(m) == 0
    ensures m <= d <= m + 6
  {
    d - Weekday(d)
  }

  /** Year, month and day of an ordinal: H. Hinnant's civil-from-days
      algorithm, shifted from the 1970 epoch to Python's ordinals. */
  function Civil(d: Date): (r: YearMonthDay)
    ensures 1 <= r.day
  {
    var z := d + 305;
    var era := z / 146097;
    var doe := z - era * 146097;
    var yoe := (doe - doe / 1460 + doe / 36524 - doe / 146096) / 365;
    var doy := doe - (365 * yoe + yoe / 4 - yoe / 100);
    var mp := (5 * doy + 2) / 153;
    var day := doy - (153 * mp + 2) / 5 + 1;
    var month := if mp < 10 then mp + 3 else mp - 9;
    var year := yoe + era * 400 + (if month <= 2 then 1 else 0);
    YearMonthDay(year, month, day)
  }

  /** `hoje.replace(day=1)`. */
  function FirstOfMonth(d: Date): (f: Date)
    ensures f <= d
  {
    d - (Civil(d).day - 1)
  }

  /** Same calendar year and month (`__year=hoje.year, __month=hoje.month`). */
  predicate SameMonth(a: Date, b: Date) {
    Civil(a).year == Civil(b).year && Civil(a).month == Civil(b).month
  }
}
