/**
 * One month of a household's transactions worked through the analytics: a
 * salary, a food expense and a debt instalment, all dated in the current
 * month `m`, viewed through a one-month window.
 */
module AnalyticsExample {
  import opened Prelude
  import opened Transactions
  import opened CashFlow
  import opened CategoryBreakdown
  import opened TransactionAnalytics

  /** A salary of 1,000,000 and expenses of 400,000 on food and 100,000 on debt, all in month `m`. */
  function Example(m: int): seq<Transaction> {
    [Transaction("1", Income, 1000000.0, "Gaji", "Gaji", Date(Some(m), "d"), "u"),
     Transaction("2", Expense, 400000.0, "Makan", "Makanan", Date(Some(m), "d"), "u"),
     Transaction("3", Expense, 100000.0, "Cicilan", "Utang", Date(Some(m), "d"), "u")]
  }

  lemma ExampleInWindow(m: int)
    ensures Recent(Example(m), m, 1) == Example(m)
    ensures Within(Example(m), m, m) == Example(m)
  {
    var s := Example(m);
    assert s[..2][..1][..0] == [];
    assert Within(s[..2][..1], m, m) == s[..1];
    assert Within(s[..2], m, m) == s[..2];
  }

  lemma ExampleTotals(m: int)
    ensures KindTotal(Example(m), Income) == 1000000.0
    ensures KindTotal(Example(m), Expense) == 500000.0
  {
    var s := Example(m);
    assert s[..2][..1][..0] == [];
    assert KindTotal(s[..2][..1], Income) == 1000000.0;
    assert KindTotal(s[..2][..1], Expense) == 0.0;
    assert KindTotal(s[..2], Expense) == 400000.0;
  }

  lemma ExampleTally(m: int)
    ensures Tally(Example(m)) == [CategoryTotal("Makanan", 400000.0), CategoryTotal("Utang", 100000.0)]
  {
    var s := Example(m);
    assert s[..2][..1][..0] == [];
    assert Tally(s[..2][..1]) == [];
    assert Tally(s[..2]) == [CategoryTotal("Makanan", 400000.0)];
    assert "Makanan"[0] != "Utang"[0];
  }

  lemma ExampleShares()
    ensures Shares([CategoryTotal("Makanan", 400000.0), CategoryTotal("Utang", 100000.0)], 500000.0)
      == [CategoryShare("Makanan", 400000.0, 80.0), CategoryShare("Utang", 100000.0, 20.0)]
  {
    assert Percentage(400000.0, 500000.0) == 80.0;
    assert Percentage(100000.0, 500000.0) == 20.0;
  }

  /**
   * Income 1,000,000, expense 500,000, net 500,000; food takes 80 percent of
   * the expense and comes first, debt takes the remaining 20 percent.
   */
  lemma ExampleMonth(m: int)
    ensures Analyze(Example(m), m, 1).totalIncome == 1000000.0
    ensures Analyze(Example(m), m, 1).totalExpense == 500000.0
    ensures Analyze(Example(m), m, 1).netBalance == 500000.0
    ensures Analyze(Example(m), m, 1).categoryBreakdown
      == [CategoryShare("Makanan", 400000.0, 80.0), CategoryShare("Utang", 100000.0, 20.0)]
  {
    ExampleInWindow(m);
    ExampleTotals(m);
    ExampleTally(m);
    ExampleShares();
    var e := [CategoryShare("Makanan", 400000.0, 80.0), CategoryShare("Utang", 100000.0, 20.0)];
    assert e[1..][1..] == [];
    assert SortByAmount(e) == e;
  }
}
