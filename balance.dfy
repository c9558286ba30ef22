/**
 * The balance calculator: the start of the current budget period, the
 * expenses that fall in it, and the spent/left/percent figures.
 *
 * Time is the local clock in milliseconds, read as a day number (day 0 is
 * Thursday 1 January 1970), the milliseconds into that day, and the day of
 * the month.
 */
module Balance {
  import opened Entities
  import opened Sequences
  import opened Spending

  const DayMs: int := 86_400_000

  /** The local calendar reading of `now`. */
  datatype Clock = Clock(day: int, millis: int, monthDay: int)

  predicate ValidClock(c: Clock) {
    0 <= c.millis < DayMs && 1 <= c.monthDay <= 31
  }

  /** The timestamp of `now`. */
  function Instant(c: Clock): int {
    c.day * DayMs + c.millis
  }

  /** `Date.prototype.getDay` of a day number: 0 is Sunday. */
  function Weekday(day: int): int {
    (day + 4) % 7
  }

  /** The first day of the period that contains `c.day`. */
  function StartDay(period: string, c: Clock): int {
    if period == "weekly" then c.day - Weekday(c.day)
    else if period == "monthly" then c.day - (c.monthDay - 1)
    else c.day
  }

  lemma MidnightDay(d: int)
    ensures (d * DayMs) % DayMs == 0 && (d * DayMs) / DayMs == d
  {
  }

  /**
   * `getPeriodStart`: a midnight never after `now`; for "daily" (and any
   * other period) the midnight of today, for "weekly" the most recent
   * Sunday midnight, for "monthly" the midnight of the 1st of the month.
   */
  function PeriodStart(period: string, c: Clock): (start: int)
    requires ValidClock(c)
    ensures start % DayMs == 0
    ensures start <= Instant(c)
    ensures period != "weekly" && period != "monthly" ==> Instant(c) < start + DayMs
    ensures period == "weekly" ==> Weekday(start / DayMs) == 0 && Instant(c) < start + 7 * DayMs
    ensures period == "monthly" ==> c.day - start / DayMs == c.monthDay - 1
    ensures period == "monthly" ==> Instant(c) < start + c.monthDay * DayMs
  {
    var d := StartDay(period, c);
    MidnightDay(d);
    assert period == "weekly" ==> Weekday(d) == 0;
    d * DayMs
  }

  /** Any Sunday midnight that is not after `now` is no later than the weekly period start. */
  lemma WeeklyStartIsLatestSunday(c: Clock, m: int)
    requires ValidClock(c)
    requires m % DayMs == 0 && Weekday(m / DayMs) == 0 && m <= Instant(c)
    ensures m <= PeriodStart("weekly", c)
  {
  }

  /** `filterExpensesByPeriod`: the expenses stamped at or after the period start, in their stored order. */
  function FilterExpensesByPeriod(expenses: seq<Expense>, period: string, c: Clock): (r: seq<Expense>)
    requires ValidClock(c)
    ensures forall e :: e in r <==> e in expenses && e.timestamp >= PeriodStart(period, c)
  {
    var start := PeriodStart(period, c);
    Filter(expenses, (e: Expense) => e.timestamp >= start)
  }

  /** Filtering by period filters each part of a concatenation. */
  lemma FilterByPeriodConcat(a: seq<Expense>, b: seq<Expense>, period: string, c: Clock)
    requires ValidClock(c)
    ensures FilterExpensesByPeriod(a + b, period, c)
         == FilterExpensesByPeriod(a, period, c) + FilterExpensesByPeriod(b, period, c)
  {
    var start := PeriodStart(period, c);
    FilterConcat(a, b, (e: Expense) => e.timestamp >= start);
  }

  datatype BalanceResult = BalanceResult(spent: int, left: int, percent: real, total: int, expenses: seq<Expense>)

  /**
   * `calculateBalance`: the expenses of the current period, what they sum
   * to, and what is left of the budget, with `left` never negative and
   * `percent` at most 1 and 0 for a budget that is not positive.
   */
  function CalculateBalance(settings: Settings, expenses: seq<Expense>, c: Clock): (b: BalanceResult)
    requires ValidClock(c)
    ensures b.expenses == FilterExpensesByPeriod(expenses, settings.period, c)
    ensures b.spent == SumAmounts(b.expenses)
    ensures b.total == settings.budget
    ensures b.left >= 0 && b.percent <= 1.0
    ensures b.total <= 0 ==> b.percent == 0.0
    ensures b.spent <= b.total ==> b.left == b.total - b.spent
    ensures b.total <= b.spent ==> b.left == 0
    ensures Figures(b.spent, b.left, b.percent) == ComputeFigures(b.total, b.spent)
    ensures (forall e :: e in expenses ==> e.amount >= 0) ==> b.percent >= 0.0
  {
    var scoped := FilterExpensesByPeriod(expenses, settings.period, c);
    var spent := SumAmounts(scoped);
    assert (forall e :: e in expenses ==> e.amount >= 0) ==> spent >= 0 by {
      if forall e :: e in expenses ==> e.amount >= 0 {
        assert forall e :: e in scoped ==> e in expenses;
      }
    }
    var f := ComputeFigures(settings.budget, spent);
    BalanceResult(f.spent, f.left, f.percent, settings.budget, scoped)
  }

  /** A zero budget gives percent 0 and, with non-negative amounts, nothing left. */
  lemma ZeroBudget(settings: Settings, expenses: seq<Expense>, c: Clock)
    requires ValidClock(c) && settings.budget == 0
    requires forall e :: e in expenses ==> e.amount >= 0
    ensures CalculateBalance(settings, expenses, c).percent == 0.0
    ensures CalculateBalance(settings, expenses, c).left == 0
  {
  }

  /**
   * Appending an expense raises `spent` by its amount when it falls in the
   * current period and leaves it unchanged otherwise.
   */
  lemma SpentAfterAppend(settings: Settings, expenses: seq<Expense>, e: Expense, c: Clock)
    requires ValidClock(c)
    ensures CalculateBalance(settings, expenses + [e], c).spent
         == CalculateBalance(settings, expenses, c).spent
            + (if e.timestamp >= PeriodStart(settings.period, c) then e.amount else 0)
  {
    FilterByPeriodConcat(expenses, [e], settings.period, c);
    var start := PeriodStart(settings.period, c);
    var keep := (x: Expense) => x.timestamp >= start;
    assert FilterExpensesByPeriod([e], settings.period, c) == Filter([e], keep);
    assert Filter([e], keep) == (if keep(e) then [e] else []) + Filter([], keep);
    SumConcat(FilterExpensesByPeriod(expenses, settings.period, c), FilterExpensesByPeriod([e], settings.period, c));
  }

  /** An expense stamped at `now` is always in the current period. */
  lemma NowIsInPeriod(expenses: seq<Expense>, period: string, c: Clock, e: Expense)
    requires ValidClock(c) && e in expenses && e.timestamp == Instant(c)
    ensures e in FilterExpensesByPeriod(expenses, period, c)
  {
  }

  /**
   * Thursday 14 March 2024, 10:00 (day 19796): the week starts on Sunday
   * 10 March (day 19792); an expense one second after that midnight is in
   * the week, one a second before it is not.
   */
  lemma WeeklyBoundaryExample(a: Expense, b: Expense)
    requires a.timestamp == 19792 * DayMs + 1000
    requires b.timestamp == 19792 * DayMs - 1000
    ensures Weekday(19796) == 4 && Weekday(19792) == 0
    ensures FilterExpensesByPeriod([a, b], "weekly", Clock(19796, 10 * 3_600_000, 14)) == [a]
  {
    var c := Clock(19796, 10 * 3_600_000, 14);
    assert PeriodStart("weekly", c) == 19792 * DayMs;
    var keep := (e: Expense) => e.timestamp >= 19792 * DayMs;
    assert Filter([a, b], keep) == [a] + Filter([b], keep);
    assert Filter([b], keep) == [] + Filter([], keep);
  }
}
