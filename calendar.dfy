/** Calendar dates, invoice timestamps and the month keys used for the monthly
    revenue buckets of the dashboard. */
module Calendar {

  type MonthNumber = m: int | 1 <= m <= 12 witness 1
  type DayNumber = d: int | 1 <= d <= 31 witness 1
  type SecondOfDay = s: int | 0 <= s < 86400 witness 0

  /** A calendar date, as produced by truncating a timestamp to its day. */
  datatype Date = Date(year: int, month: MonthNumber, day: DayNumber)

  /** An invoice timestamp: a date plus a time of day (in seconds). */
  datatype Timestamp = Timestamp(date: Date, second: SecondOfDay)

  /** A calendar month; the key of one monthly revenue bucket. */
  datatype YearMonth = YearMonth(year: int, month: MonthNumber)

  /** Chronological order on dates (lexicographic on year, month, day). */
  predicate DateLe(a: Date, b: Date) {
    a.year < b.year
    || (a.year == b.year && (a.month < b.month || (a.month == b.month && a.day <= b.day)))
  }

  /** Chronological order on timestamps: by date, then by time of day. */
  predicate TimestampLe(a: Timestamp, b: Timestamp) {
    (DateLe(a.date, b.date) && a.date != b.date) || (a.date == b.date && a.second <= b.second)
  }

  /** Truncation of a timestamp to its calendar date (pandas `.dt.date`). */
  function TruncateToDate(ts: Timestamp): Date {
    ts.date
  }

  /** The calendar month a date falls in. */
  function MonthOf(d: Date): YearMonth {
    YearMonth(d.year, d.month)
  }

  /** Months counted from January of year 0; consecutive months have consecutive indices. */
  function MonthIndex(m: YearMonth): int {
    m.year * 12 + (m.month - 1)
  }

  /** The month with a given index. */
  function MonthAt(i: int): YearMonth {
    YearMonth(i / 12, i % 12 + 1)
  }

  lemma IndexOfMonthAt(i: int)
    ensures MonthIndex(MonthAt(i)) == i
  {
  }

  /** Distinct months have distinct indices. */
  lemma SameIndexSameMonth(a: YearMonth, b: YearMonth)
    requires MonthIndex(a) == MonthIndex(b)
    ensures a == b
  {
  }

  /** Truncation to the day keeps the chronological order of timestamps. */
  lemma TruncateMonotone(a: Timestamp, b: Timestamp)
    requires TimestampLe(a, b)
    ensures DateLe(TruncateToDate(a), TruncateToDate(b))
  {
  }

  /** Later dates never fall in earlier months. */
  lemma MonthIndexMonotone(a: Date, b: Date)
    requires DateLe(a, b)
    ensures MonthIndex(MonthOf(a)) <= MonthIndex(MonthOf(b))
  {
  }
}
