/** The aggregation behind pages/Reports.tsx: the period filter, the fold
    into income and expense totals, and the displayed balance. "Now" is a
    parameter. */
module Reports {
  import opened Types
  import Sequences

  /** The periods the report's selector offers. */
  datatype Period = Month | ThreeMonths | Year

  /** The selector's value read as a period: `"year"` and `"3months"` are
      recognised, every other string falls through to the current month. */
  function PeriodFromString(s: string): (p: Period)
    ensures p == Year <==> s == "year"
    ensures p == ThreeMonths <==> s == "3months"
    ensures p == Month <==> s != "year" && s != "3months"
  {
    if s == "year" then Year else if s == "3months" then ThreeMonths else Month
  }

  /** The first day of the month two months before `now`'s month, with the
      year borrowed when that crosses January. */
  function ThreeMonthsAgo(now: Date): (start: Date)
    requires 1 <= now.month <= 12
    ensures ValidDate(start) && start.day == 1
    ensures MonthIndex(start) == MonthIndex(now) - 2
  {
    if now.month > 2 then Date(now.year, now.month - 2, 1)
    else Date(now.year - 1, now.month + 10, 1)
  }

  /** Whether a date falls in the period that ends at `now`. */
  predicate InPeriod(period: Period, now: Date, d: Date)
    requires 1 <= now.month <= 12
  {
    match period
    case Year => d.year == now.year
    case ThreeMonths => DateLe(ThreeMonthsAgo(now), d)
    case Month => d.month == now.month && d.year == now.year
  }

  function InPeriodFilter(period: Period, now: Date): Transaction -> bool
    requires 1 <= now.month <= 12
  {
    (t: Transaction) => InPeriod(period, now, t.date)
  }

  /** `filteredTransactions`: the entries of the selected period, in ledger
      order. */
  function FilterByPeriod(txs: seq<Transaction>, period: Period, now: Date): (r: seq<Transaction>)
    requires 1 <= now.month <= 12
    ensures |r| <= |txs|
    ensures forall i :: 0 <= i < |r| ==> InPeriod(period, now, r[i].date)
    ensures Sequences.IsSubsequence(r, txs)
  {
    Sequences.FilterIsSubsequence(txs, InPeriodFilter(period, now));
    Sequences.Filter(txs, InPeriodFilter(period, now))
  }

  /** The filter keeps exactly the entries of the period, with their
      multiplicity. */
  lemma FilterByPeriodKeeps(txs: seq<Transaction>, period: Period, now: Date, t: Transaction)
    requires 1 <= now.month <= 12
    ensures t in FilterByPeriod(txs, period, now) <==> t in txs && InPeriod(period, now, t.date)
    ensures multiset(FilterByPeriod(txs, period, now))[t]
         == if InPeriod(period, now, t.date) then multiset(txs)[t] else 0
  {
    Sequences.FilterMembership(txs, InPeriodFilter(period, now), t);
    Sequences.FilterCount(txs, InPeriodFilter(period, now), t);
  }

  /** For a real calendar date the three-month window is "at most two
      months before now's month", counted across year boundaries. */
  lemma ThreeMonthsWindow(now: Date, d: Date)
    requires 1 <= now.month <= 12
    requires ValidDate(d)
    ensures InPeriod(ThreeMonths, now, d) <==> MonthIndex(d) >= MonthIndex(now) - 2
  {
  }

  /** A date of the current month is also in the last three months and in
      the current year. */
  lemma MonthWithinThreeMonths(now: Date, d: Date)
    requires 1 <= now.month <= 12
    requires ValidDate(d)
    requires InPeriod(Month, now, d)
    ensures InPeriod(ThreeMonths, now, d) && InPeriod(Year, now, d)
  {
  }

  // ---------------------------------------------------------------------
  // The filter as written reads dates in local time

  /** The calendar day before a real date. */
  function PreviousDay(d: Date): (p: Date)
    requires ValidDate(d)
    ensures ValidDate(p)
    ensures DateLe(p, d) && p != d
  {
    if d.day > 1 then Date(d.year, d.month, d.day - 1)
    else if d.month > 1 then Date(d.year, d.month - 1, DaysInMonth(d.year, d.month - 1))
    else Date(d.year - 1, 12, 31)
  }

  /** The local calendar day at which the UTC midnight of `d` falls.
      `new Date("YYYY-MM-DD")` is UTC midnight; west of UTC (by less than
      a day) that instant is still the evening of the previous local day. */
  function LocalDateOf(d: Date, westOfUtc: bool): (l: Date)
    requires ValidDate(d)
    ensures ValidDate(l)
    ensures !westOfUtc ==> l == d
  {
    if westOfUtc then PreviousDay(d) else d
  }

  /** The period test exactly as the page performs it: the entry's date is
      parsed as UTC and then read back with local-time getters (month and
      year) or compared as an instant with local midnight (three months). */
  predicate InPeriodAsWritten(period: Period, now: Date, d: Date, westOfUtc: bool)
    requires 1 <= now.month <= 12
    requires ValidDate(d)
  {
    InPeriod(period, now, LocalDateOf(d, westOfUtc))
  }

  /** At or east of UTC the page's test agrees with the calendar test. This
      is a consequence of how `LocalDateOf` is defined there (the calendar
      date itself), not an independent result. */
  lemma AsWrittenAgreesEastOfUtc(period: Period, now: Date, d: Date)
    requires 1 <= now.month <= 12
    requires ValidDate(d)
    ensures InPeriodAsWritten(period, now, d, false) <==> InPeriod(period, now, d)
  {
  }

  /** West of UTC the page's test files an entry dated the 1st of the
      current month under the previous month: it is missing from "this
      month", although its calendar date is in it. */
  lemma AsWrittenMisfilesFirstOfMonth()
    ensures var now, d := Date(2024, 7, 15), Date(2024, 7, 1);
      InPeriod(Month, now, d) && !InPeriodAsWritten(Month, now, d, true)
  {
    assert PreviousDay(Date(2024, 7, 1)) == Date(2024, 6, 30);
  }

  /** Likewise the first day of the three-month window falls out of it. */
  lemma AsWrittenMisfilesWindowStart()
    ensures var now, d := Date(2024, 7, 15), Date(2024, 5, 1);
      InPeriod(ThreeMonths, now, d) && !InPeriodAsWritten(ThreeMonths, now, d, true)
  {
    assert PreviousDay(Date(2024, 5, 1)) == Date(2024, 4, 30);
  }

  // ---------------------------------------------------------------------
  // Totals

  /** The `reduce` accumulator. `balance` is part of its initial value but
      the reducer never writes it. */
  datatype Totals = Totals(totalIncome: int, totalExpenses: int, balance: int)

  predicate IsIncome(t: Transaction) {
    t.txType == Income
  }

  predicate IsNotIncome(t: Transaction) {
    t.txType != Income
  }

  /** Sum of the amounts of a list, the reference the totals are checked
      against. */
  function SumAmounts(s: seq<Transaction>): int {
    if s == [] then 0 else s[0].amount + SumAmounts(s[1..])
  }

  /** One step of the reducer: the amount goes to exactly one of the two
      totals, chosen by the type, and `balance` is not written. */
  function Accumulate(acc: Totals, t: Transaction): (r: Totals)
    ensures t.txType == Income ==> r.totalExpenses == acc.totalExpenses
    ensures t.txType != Income ==> r.totalIncome == acc.totalIncome
    ensures r.totalIncome + r.totalExpenses == acc.totalIncome + acc.totalExpenses + t.amount
    ensures r.balance == acc.balance
  {
    if t.txType == Income then acc.(totalIncome := acc.totalIncome + t.amount)
    else acc.(totalExpenses := acc.totalExpenses + t.amount)
  }

  /** `Array.prototype.reduce`: a left fold from the first element. Every
      amount ends up in one of the two totals, and `balance` is untouched. */
  function Reduce(s: seq<Transaction>, acc: Totals): (r: Totals)
    ensures r.totalIncome + r.totalExpenses == acc.totalIncome + acc.totalExpenses + SumAmounts(s)
    ensures r.balance == acc.balance
  {
    if s == [] then acc else Reduce(s[1..], Accumulate(acc, s[0]))
  }

  /** Folding from any accumulator adds the income and the non-income sums
      to it and leaves `balance` alone. */
  lemma {:induction false} ReduceAdds(s: seq<Transaction>, acc: Totals)
    ensures Reduce(s, acc).totalIncome == acc.totalIncome + SumAmounts(Sequences.Filter(s, IsIncome))
    ensures Reduce(s, acc).totalExpenses == acc.totalExpenses + SumAmounts(Sequences.Filter(s, IsNotIncome))
    ensures Reduce(s, acc).balance == acc.balance
  {
    if s != [] {
      ReduceAdds(s[1..], Accumulate(acc, s[0]));
    }
  }

  /** The income and the non-income parts together make up the whole. */
  lemma {:induction false} SplitSum(s: seq<Transaction>)
    ensures SumAmounts(Sequences.Filter(s, IsIncome)) + SumAmounts(Sequences.Filter(s, IsNotIncome))
         == SumAmounts(s)
  {
    if s != [] {
      SplitSum(s[1..]);
    }
  }

  /** The report's totals over the filtered entries. */
  function Summarize(filtered: seq<Transaction>): (r: Totals)
    ensures r.totalIncome == SumAmounts(Sequences.Filter(filtered, IsIncome))
    ensures r.totalExpenses == SumAmounts(Sequences.Filter(filtered, IsNotIncome))
    ensures r.totalIncome + r.totalExpenses == SumAmounts(filtered)
    ensures r.balance == 0
  {
    ReduceAdds(filtered, Totals(0, 0, 0));
    SplitSum(filtered);
    Reduce(filtered, Totals(0, 0, 0))
  }

  /** `calculatedBalance`: income minus expenses, computed outside the fold. */
  function CalculatedBalance(filtered: seq<Transaction>): (b: int)
    ensures b == SumAmounts(Sequences.Filter(filtered, IsIncome))
               - SumAmounts(Sequences.Filter(filtered, IsNotIncome))
    ensures b == 2 * SumAmounts(Sequences.Filter(filtered, IsIncome)) - SumAmounts(filtered)
  {
    var totals := Summarize(filtered);
    totals.totalIncome - totals.totalExpenses
  }

  /** The whole report for a ledger, a selector value and a clock reading. */
  function Report(txs: seq<Transaction>, period: string, now: Date): (r: (Totals, int))
    requires 1 <= now.month <= 12
    ensures var f := FilterByPeriod(txs, PeriodFromString(period), now);
      && r.0.totalIncome == SumAmounts(Sequences.Filter(f, IsIncome))
      && r.0.totalExpenses == SumAmounts(Sequences.Filter(f, IsNotIncome))
    ensures r.1 == r.0.totalIncome - r.0.totalExpenses
    ensures r.0.balance == 0
  {
    var filtered := FilterByPeriod(txs, PeriodFromString(period), now);
    (Summarize(filtered), CalculatedBalance(filtered))
  }
}
