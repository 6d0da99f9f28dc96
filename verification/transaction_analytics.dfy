/**
 * `useTransactionAnalytics`: the totals, cash-flow series, expense breakdown
 * and current-month savings computed from a transaction list over a trailing
 * window of `months` calendar months ending at the current month `now`.
 */
module TransactionAnalytics {
  import opened Prelude
  import opened Transactions
  import opened CashFlow
  import opened CategoryBreakdown

  datatype Analytics = Analytics(
    totalIncome: real,
    totalExpense: real,
    netBalance: real,
    monthlySavings: real,
    savingsRatio: real,
    monthlyCashFlow: seq<MonthBucket>,
    categoryBreakdown: seq<CategoryShare>)

  /**
   * `monthlySavings / income * 100`, or 0 when the current month has no
   * income: the same guarded percentage as a category's share of the expenses.
   */
  function SavingsRatio(savings: real, income: real): real {
    Percentage(savings, income)
  }

  /** The analytics of a list already restricted to the window. */
  function Summarize(recent: seq<Transaction>, now: int, months: nat): Analytics {
    var totalIncome := KindTotal(recent, Income);
    var totalExpense := KindTotal(recent, Expense);
    var current := Within(recent, now, now);
    var currentIncome := KindTotal(current, Income);
    var savings := currentIncome - KindTotal(current, Expense);
    Analytics(
      totalIncome,
      totalExpense,
      totalIncome - totalExpense,
      savings,
      SavingsRatio(savings, currentIncome),
      Series(recent, now, months),
      Breakdown(recent, totalExpense))
  }

  /**
   * The analytics of `s`. The series has one bucket per month of the window,
   * oldest first and ending at the current month; the savings are the current
   * month's income less its expense, which is the last bucket's net.
   */
  function Analyze(s: seq<Transaction>, now: int, months: int): (a: Analytics)
    requires months >= 1
    ensures a.netBalance == a.totalIncome - a.totalExpense
    ensures |a.monthlyCashFlow| == months
    ensures forall k :: 0 <= k < months ==> a.monthlyCashFlow[k].month == WindowStart(now, months) + k
    ensures forall k :: 0 <= k < months ==> a.monthlyCashFlow[k].net == a.monthlyCashFlow[k].income - a.monthlyCashFlow[k].expense
    ensures a.monthlyCashFlow[months - 1].month == now
    ensures a.monthlySavings == a.monthlyCashFlow[months - 1].net
    ensures a.savingsRatio == SavingsRatio(a.monthlySavings, a.monthlyCashFlow[months - 1].income)
    ensures SortedByAmount(a.categoryBreakdown)
  {
    Summarize(Recent(s, now, months), now, months)
  }

  /**
   * A transaction counts towards the totals exactly when its date parses and
   * falls in the window: appended to any list, one that does adds its amount
   * to the total of its kind, one that does not changes nothing.
   */
  lemma AddingTransaction(s: seq<Transaction>, t: Transaction, now: int, months: int)
    requires months >= 1
    ensures InMonths(t, WindowStart(now, months), now) ==>
      && Analyze(s + [t], now, months).totalIncome == Analyze(s, now, months).totalIncome + Contribution(t, Income)
      && Analyze(s + [t], now, months).totalExpense == Analyze(s, now, months).totalExpense + Contribution(t, Expense)
    ensures !InMonths(t, WindowStart(now, months), now) ==> Analyze(s + [t], now, months) == Analyze(s, now, months)
  {
    var lo := WindowStart(now, months);
    WithinAppend(s, [t], lo, now);
    assert [t][..0] == [];
    if InMonths(t, lo, now) {
      KindTotalAppend(Within(s, lo, now), [t], Income);
      KindTotalAppend(Within(s, lo, now), [t], Expense);
    } else {
      assert Within(s + [t], lo, now) == Within(s, lo, now);
    }
  }

  /** A transaction outside the window, for one whose date does not parse, may sit anywhere in the list. */
  lemma OutsideWindowIgnored(a: seq<Transaction>, t: Transaction, b: seq<Transaction>, now: int, months: int)
    requires months >= 1
    requires !InMonths(t, WindowStart(now, months), now)
    ensures Analyze(a + [t] + b, now, months) == Analyze(a + b, now, months)
  {
    WithinSkips(a, t, b, WindowStart(now, months), now);
  }

  /** The buckets tile the window: their incomes and expenses add up to the window totals. */
  lemma CashFlowTilesWindow(s: seq<Transaction>, now: int, months: int)
    requires months >= 1
    ensures FlowTotal(Analyze(s, now, months).monthlyCashFlow, Income) == Analyze(s, now, months).totalIncome
    ensures FlowTotal(Analyze(s, now, months).monthlyCashFlow, Expense) == Analyze(s, now, months).totalExpense
  {
    var lo := WindowStart(now, months);
    var recent := Recent(s, now, months);
    SeriesTiles(recent, now, months, Income);
    SeriesTiles(recent, now, months, Expense);
    WithinWithin(s, lo, now, lo, now);
  }

  /**
   * A bucket holds exactly the transactions of the list dated in its month:
   * the window filter in front of it drops none of them.
   */
  lemma BucketsSeeWholeMonth(s: seq<Transaction>, now: int, months: int, k: int, m: int)
    requires months >= 1 && 0 <= k < months && m == WindowStart(now, months) + k
    ensures Analyze(s, now, months).monthlyCashFlow[k].income == KindTotal(Within(s, m, m), Income)
    ensures Analyze(s, now, months).monthlyCashFlow[k].expense == KindTotal(Within(s, m, m), Expense)
  {
    assert Analyze(s, now, months).monthlyCashFlow == Series(Recent(s, now, months), now, months);
    SeriesSeesWholeMonth(s, now, months, k, m);
  }

  /**
   * The breakdown has one entry per category some in-window expense is
   * booked under, each holding that category's in-window sum, and the
   * amounts add up to the total expense.
   */
  lemma BreakdownMatchesWindow(s: seq<Transaction>, now: int, months: int)
    requires months >= 1
    ensures Distinct(ShareKeys(Analyze(s, now, months).categoryBreakdown))
    ensures forall c :: c in ShareKeys(Analyze(s, now, months).categoryBreakdown) <==> SpentOn(Recent(s, now, months), c)
    ensures forall x :: x in Analyze(s, now, months).categoryBreakdown ==> x.amount == CategorySpend(Recent(s, now, months), x.category)
    ensures AmountSum(Analyze(s, now, months).categoryBreakdown) == Analyze(s, now, months).totalExpense
  {
    var recent := Recent(s, now, months);
    var total := KindTotal(recent, Expense);
    BreakdownCategories(recent, total);
    BreakdownEntries(recent, total);
    BreakdownAmounts(recent, total);
  }

  /**
   * Each percentage is the entry's share of the total expense, or 0 when that
   * total is 0; when the total is not 0 the percentages add up to 100.
   */
  lemma PercentagesClose(s: seq<Transaction>, now: int, months: int)
    requires months >= 1
    ensures forall x :: x in Analyze(s, now, months).categoryBreakdown ==>
      x.percentage == Percentage(x.amount, Analyze(s, now, months).totalExpense)
    ensures Analyze(s, now, months).totalExpense == 0.0 ==>
      forall x :: x in Analyze(s, now, months).categoryBreakdown ==> x.percentage == 0.0
    ensures Analyze(s, now, months).totalExpense != 0.0 ==> PercentSum(Analyze(s, now, months).categoryBreakdown) == 100.0
  {
    var recent := Recent(s, now, months);
    var total := KindTotal(recent, Expense);
    BreakdownEntries(recent, total);
    BreakdownPercentages(recent, total);
  }

  /** The savings ratio is 0 without income, and otherwise the savings as a percentage of the income. */
  lemma SavingsRatioMeaning(savings: real, income: real)
    ensures income == 0.0 ==> SavingsRatio(savings, income) == 0.0
    ensures income != 0.0 ==> SavingsRatio(savings, income) * income == savings * 100.0
  {
  }
}
