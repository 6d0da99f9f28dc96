/**
 * The transaction record shared by every view of the app, and the one sum
 * they all compute over it: the total amount of one kind.
 */
module Transactions {
  import opened Prelude

  /** The `type` of a transaction: the amount is a magnitude, the kind gives its sign. */
  datatype Kind = Income | Expense

  /**
   * What the app reads off a transaction's date text: the calendar month it
   * falls in, as a month index (12 * year + month), or `None` when the text
   * does not parse; and the day label the dashboard chart groups by, an opaque
   * key produced by the locale formatter.
   */
  datatype Date = Date(month: Option<int>, dayLabel: string)

  datatype Transaction = Transaction(
    id: string,
    kind: Kind,
    amount: real,
    description: string,
    category: string,
    date: Date,
    userId: string)

  /** What `t` adds to a running total of kind `k`. */
  function Contribution(t: Transaction, k: Kind): real {
    if t.kind == k then t.amount else 0.0
  }

  /** What `t` does to a balance: an income raises it, an expense lowers it. */
  function Signed(t: Transaction): (v: real)
    ensures v == Contribution(t, Income) - Contribution(t, Expense)
  {
    if t.kind == Income then t.amount else -t.amount
  }

  /**
   * The sum of the amounts of kind `k` in `s`, folded from the first
   * transaction to the last as `filter(...).reduce((sum, t) => sum + t.amount, 0)` does.
   */
  function KindTotal(s: seq<Transaction>, k: Kind): real {
    if |s| == 0 then 0.0 else KindTotal(s[..|s| - 1], k) + Contribution(s[|s| - 1], k)
  }

  /** Totals add up over a concatenation. */
  lemma {:induction false} KindTotalAppend(a: seq<Transaction>, b: seq<Transaction>, k: Kind)
    ensures KindTotal(a + b, k) == KindTotal(a, k) + KindTotal(b, k)
    decreases |b|
  {
    if |b| > 0 {
      assert (a + b)[..|a + b| - 1] == a + b[..|b| - 1];
      KindTotalAppend(a, b[..|b| - 1], k);
    } else {
      assert a + b == a;
    }
  }

  /** Putting a transaction in front of a list adds its contribution to the total. */
  lemma KindTotalCons(t: Transaction, s: seq<Transaction>, k: Kind)
    ensures KindTotal([t] + s, k) == Contribution(t, k) + KindTotal(s, k)
  {
    KindTotalAppend([t], s, k);
    assert [t][..0] == [];
  }
}
