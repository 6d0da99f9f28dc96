/**
 * The dashboard bar chart: transactions folded, first to last, into one
 * bucket per day label, each holding that day's income and expense totals.
 */
module FinancialChart {
  import opened Prelude
  import opened Transactions

  datatype DayBucket = DayBucket(date: string, income: real, expense: real)

  function Labels(acc: seq<DayBucket>): (ls: seq<string>)
    ensures |ls| == |acc|
    ensures forall i :: 0 <= i < |acc| ==> ls[i] == acc[i].date
  {
    seq(|acc|, i requires 0 <= i < |acc| => acc[i].date)
  }

  /** `acc.find(item => item.date === d)`: the position of the first bucket with label `d`. */
  function Find(acc: seq<DayBucket>, d: string): (o: Option<nat>)
    ensures o.Some? ==> o.value < |acc| && acc[o.value].date == d
    ensures o.Some? ==> forall j :: 0 <= j < o.value ==> acc[j].date != d
    ensures o.None? ==> forall j :: 0 <= j < |acc| ==> acc[j].date != d
  {
    if acc == [] then None
    else if acc[0].date == d then Some(0)
    else
      match Find(acc[1..], d)
      case Some(j) => Some(j + 1)
      case None => None
  }

  /** The bucket amount of kind `k`. */
  function Amount(b: DayBucket, k: Kind): real {
    if k == Income then b.income else b.expense
  }

  /** One step of the fold: add to the day's bucket if there is one, otherwise open it at the end. */
  function Record(acc: seq<DayBucket>, t: Transaction): (r: seq<DayBucket>)
    ensures |acc| <= |r| <= |acc| + 1
  {
    var d := t.date.dayLabel;
    match Find(acc, d)
    case Some(j) =>
      acc[j := if t.kind == Income then acc[j].(income := acc[j].income + t.amount)
               else acc[j].(expense := acc[j].expense + t.amount)]
    case None =>
      acc + [DayBucket(d, if t.kind == Income then t.amount else 0.0, if t.kind == Expense then t.amount else 0.0)]
  }

  /** The chart data: the fold over the whole list, starting from no buckets. */
  function GroupByDay(s: seq<Transaction>): (r: seq<DayBucket>)
    ensures |r| <= |s|
  {
    if s == [] then [] else Record(GroupByDay(s[..|s| - 1]), s[|s| - 1])
  }

  function DayLabels(s: seq<Transaction>): (ls: seq<string>)
    ensures |ls| == |s|
    ensures forall i :: 0 <= i < |s| ==> ls[i] == s[i].date.dayLabel
  {
    seq(|s|, i requires 0 <= i < |s| => s[i].date.dayLabel)
  }

  /** Each label the first time it occurs, in the order of those first occurrences. */
  function FirstAppearances(ls: seq<string>): seq<string> {
    if ls == [] then []
    else
      var init, last := ls[..|ls| - 1], ls[|ls| - 1];
      FirstAppearances(init) + (if last in init then [] else [last])
  }

  /** The total of kind `k` over the transactions labelled `d`. */
  function DayTotal(s: seq<Transaction>, d: string, k: Kind): real {
    if s == [] then 0.0
    else
      var last := s[|s| - 1];
      DayTotal(s[..|s| - 1], d, k) + (if last.date.dayLabel == d then Contribution(last, k) else 0.0)
  }

  /** The total of kind `k` over all buckets. */
  function BucketTotal(acc: seq<DayBucket>, k: Kind): real {
    if acc == [] then 0.0 else BucketTotal(acc[..|acc| - 1], k) + Amount(acc[|acc| - 1], k)
  }

  lemma {:induction false} FirstAppearancesMembers(ls: seq<string>, x: string)
    ensures x in FirstAppearances(ls) <==> x in ls
  {
    if ls != [] {
      FirstAppearancesMembers(ls[..|ls| - 1], x);
      assert ls == ls[..|ls| - 1] + [ls[|ls| - 1]];
    }
  }

  /**
   * Each label occurs once, and labels appear in the order of their first
   * occurrence in the input.
   */
  lemma {:induction false} FirstAppearancesOrdered(ls: seq<string>)
    ensures Distinct(FirstAppearances(ls))
    ensures forall x :: x in FirstAppearances(ls) ==> x in ls
    ensures forall i, j :: 0 <= i < j < |FirstAppearances(ls)| ==>
      FirstIndex(ls, FirstAppearances(ls)[i]) < FirstIndex(ls, FirstAppearances(ls)[j])
  {
    if ls != [] {
      var init, last := ls[..|ls| - 1], ls[|ls| - 1];
      assert ls == init + [last];
      FirstAppearancesOrdered(init);
      var fa := FirstAppearances(init);
      forall x | x in fa ensures FirstIndex(ls, x) == FirstIndex(init, x) {
        FirstIndexSnoc(init, last, x);
      }
      if last !in init {
        FirstAppearancesMembers(init, last);
        DistinctSnoc(fa, last);
        FirstIndexOfNew(init, last);
      }
    }
  }

  lemma RecordLabels(acc: seq<DayBucket>, t: Transaction)
    ensures Labels(Record(acc, t))
      == if t.date.dayLabel in Labels(acc) then Labels(acc) else Labels(acc) + [t.date.dayLabel]
  {
    var d := t.date.dayLabel;
    match Find(acc, d)
    case Some(j) =>
      assert Labels(acc)[j] == d;
    case None =>
      assert d !in Labels(acc);
  }

  /** The chart's labels are the input's day labels, each once, in order of first appearance. */
  lemma {:induction false} GroupLabels(s: seq<Transaction>)
    ensures Labels(GroupByDay(s)) == FirstAppearances(DayLabels(s))
  {
    if s != [] {
      var init, last := s[..|s| - 1], s[|s| - 1];
      GroupLabels(init);
      RecordLabels(GroupByDay(init), last);
      assert DayLabels(s)[..|s| - 1] == DayLabels(init);
      FirstAppearancesMembers(DayLabels(init), last.date.dayLabel);
    }
  }

  /** No two buckets share a label, and buckets follow the first appearance of their labels. */
  lemma GroupOrder(s: seq<Transaction>)
    ensures Distinct(Labels(GroupByDay(s)))
    ensures forall i :: 0 <= i < |GroupByDay(s)| ==> GroupByDay(s)[i].date in DayLabels(s)
    ensures forall i, j :: 0 <= i < j < |GroupByDay(s)| ==>
      FirstIndex(DayLabels(s), GroupByDay(s)[i].date) < FirstIndex(DayLabels(s), GroupByDay(s)[j].date)
  {
    GroupLabels(s);
    FirstAppearancesOrdered(DayLabels(s));
    assert forall i :: 0 <= i < |GroupByDay(s)| ==> GroupByDay(s)[i].date == Labels(GroupByDay(s))[i];
  }

  lemma {:induction false} DayTotalAbsent(s: seq<Transaction>, d: string, k: Kind)
    requires d !in DayLabels(s)
    ensures DayTotal(s, d, k) == 0.0
  {
    if s != [] {
      assert DayLabels(s)[..|s| - 1] == DayLabels(s[..|s| - 1]);
      DayTotalAbsent(s[..|s| - 1], d, k);
    }
  }

  /** Every bucket of `acc` holds the day totals of `s` for its label. */
  predicate HoldsDayTotals(acc: seq<DayBucket>, s: seq<Transaction>) {
    forall i :: 0 <= i < |acc| ==>
      acc[i].income == DayTotal(s, acc[i].date, Income) && acc[i].expense == DayTotal(s, acc[i].date, Expense)
  }

  lemma RecordKeepsDayTotals(acc: seq<DayBucket>, s: seq<Transaction>, t: Transaction)
    requires HoldsDayTotals(acc, s) && Distinct(Labels(acc))
    requires Labels(acc) == FirstAppearances(DayLabels(s))
    ensures HoldsDayTotals(Record(acc, t), s + [t])
  {
    var s' := s + [t];
    assert s'[..|s'| - 1] == s;
    var d := t.date.dayLabel;
    match Find(acc, d)
    case Some(j) =>
      forall i | 0 <= i < |acc| && i != j ensures acc[i].date != d {
        assert Labels(acc)[i] != Labels(acc)[j];
      }
    case None =>
      FirstAppearancesMembers(DayLabels(s), d);
      assert d !in Labels(acc);
      DayTotalAbsent(s, d, Income);
      DayTotalAbsent(s, d, Expense);
  }

  /** Each bucket holds the income and the expense total of the transactions with its label. */
  lemma {:induction false} GroupAmounts(s: seq<Transaction>)
    ensures HoldsDayTotals(GroupByDay(s), s)
  {
    if s != [] {
      var init := s[..|s| - 1];
      GroupAmounts(init);
      GroupLabels(init);
      FirstAppearancesOrdered(DayLabels(init));
      RecordKeepsDayTotals(GroupByDay(init), init, s[|s| - 1]);
      assert init + [s[|s| - 1]] == s;
    }
  }

  lemma {:induction false} BucketTotalUpdate(acc: seq<DayBucket>, j: nat, b: DayBucket, k: Kind)
    requires j < |acc|
    ensures BucketTotal(acc[j := b], k) == BucketTotal(acc, k) - Amount(acc[j], k) + Amount(b, k)
  {
    var n := |acc| - 1;
    assert acc[j := b][..n] == if j == n then acc[..n] else acc[..n][j := b];
    if j < n {
      BucketTotalUpdate(acc[..n], j, b, k);
    }
  }

  lemma RecordTotal(acc: seq<DayBucket>, t: Transaction, k: Kind)
    ensures BucketTotal(Record(acc, t), k) == BucketTotal(acc, k) + Contribution(t, k)
  {
    var d := t.date.dayLabel;
    match Find(acc, d)
    case Some(j) =>
      var b := if t.kind == Income then acc[j].(income := acc[j].income + t.amount)
               else acc[j].(expense := acc[j].expense + t.amount);
      BucketTotalUpdate(acc, j, b, k);
    case None =>
      var r := Record(acc, t);
      assert r[..|r| - 1] == acc;
  }

  /** Over all buckets, income and expense add up to the input's totals. */
  lemma {:induction false} GroupTotals(s: seq<Transaction>, k: Kind)
    ensures BucketTotal(GroupByDay(s), k) == KindTotal(s, k)
  {
    if s != [] {
      GroupTotals(s[..|s| - 1], k);
      RecordTotal(GroupByDay(s[..|s| - 1]), s[|s| - 1], k);
    }
  }

  /** No transactions, no bars. */
  lemma EmptyChart()
    ensures GroupByDay([]) == []
  {
  }
}
