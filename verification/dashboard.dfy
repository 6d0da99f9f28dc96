/**
 * The dashboard's state: the running balance and the list of transactions
 * added in this session, newest first.
 */
module Dashboard {
  import opened Transactions
  import FinancialChart

  datatype State = State(balance: real, transactions: seq<Transaction>)

  const Initial: State := State(0.0, [])

  /** Adding a transaction: it goes to the front, and the balance moves by its signed amount. */
  function AddTransaction(d: State, t: Transaction): (r: State)
    ensures |r.transactions| == |d.transactions| + 1
    ensures r.transactions[0] == t && r.transactions[1..] == d.transactions
    ensures r.balance == d.balance + Contribution(t, Income) - Contribution(t, Expense)
  {
    State(d.balance + Signed(t), [t] + d.transactions)
  }

  /** The balance is the income total minus the expense total of the list. */
  predicate Consistent(d: State) {
    d.balance == KindTotal(d.transactions, Income) - KindTotal(d.transactions, Expense)
  }

  /** Adding keeps the balance in step with the list. */
  lemma AddKeepsConsistent(d: State, t: Transaction)
    requires Consistent(d)
    ensures Consistent(AddTransaction(d, t))
  {
    KindTotalCons(t, d.transactions, Income);
    KindTotalCons(t, d.transactions, Expense);
  }

  /** The state after adding `ts` one after another, from the initial state. */
  function Replay(ts: seq<Transaction>): State {
    if ts == [] then Initial else AddTransaction(Replay(ts[..|ts| - 1]), ts[|ts| - 1])
  }

  function Reverse(ts: seq<Transaction>): (r: seq<Transaction>)
    ensures |r| == |ts|
    ensures forall i :: 0 <= i < |ts| ==> r[i] == ts[|ts| - 1 - i]
  {
    seq(|ts|, i requires 0 <= i < |ts| => ts[|ts| - 1 - i])
  }

  /**
   * After any sequence of adds from the initial state the list is the adds
   * newest first and the balance is income minus expense over that list.
   */
  lemma {:induction false} ReplayConsistent(ts: seq<Transaction>)
    ensures Replay(ts).transactions == Reverse(ts)
    ensures Consistent(Replay(ts))
  {
    if ts != [] {
      ReplayConsistent(ts[..|ts| - 1]);
      AddKeepsConsistent(Replay(ts[..|ts| - 1]), ts[|ts| - 1]);
    }
  }

  /** The chart on a consistent dashboard shows the same net amount as the balance. */
  lemma ChartAgreesWithBalance(d: State)
    requires Consistent(d)
    ensures FinancialChart.BucketTotal(FinancialChart.GroupByDay(d.transactions), Income)
      - FinancialChart.BucketTotal(FinancialChart.GroupByDay(d.transactions), Expense) == d.balance
  {
    FinancialChart.GroupTotals(d.transactions, Income);
    FinancialChart.GroupTotals(d.transactions, Expense);
  }
}
