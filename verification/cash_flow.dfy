/**
 * The trailing window of `useTransactionAnalytics` and its month-by-month
 * cash-flow series. Months are month indices: the window of `months` months
 * ending at the current month `now` covers `now - (months - 1)` .. `now`,
 * which is the interval from the start of the first month to the end of the
 * current one, both ends included.
 */
module CashFlow {
  import opened Prelude
  import opened Transactions

  /** The first month of a window of `months` months ending at `now`. */
  function WindowStart(now: int, months: int): int {
    now - (months - 1)
  }

  /** The date of `t` parses and falls in one of the months `lo` .. `hi`. */
  predicate InMonths(t: Transaction, lo: int, hi: int) {
    t.date.month.Some? && lo <= t.date.month.value <= hi
  }

  /**
   * The transactions of `s` dated in months `lo` .. `hi`, in their original
   * order; one whose date does not parse is dropped, never an error.
   */
  function Within(s: seq<Transaction>, lo: int, hi: int): (r: seq<Transaction>)
    ensures |r| <= |s|
    ensures forall i :: 0 <= i < |r| ==> InMonths(r[i], lo, hi)
  {
    if |s| == 0 then []
    else
      var last := s[|s| - 1];
      Within(s[..|s| - 1], lo, hi) + (if InMonths(last, lo, hi) then [last] else [])
  }

  /** The filter keeps exactly the transactions dated in the months. */
  lemma {:induction false} WithinMembers(s: seq<Transaction>, lo: int, hi: int)
    ensures forall t :: t in Within(s, lo, hi) <==> t in s && InMonths(t, lo, hi)
    decreases |s|
  {
    if |s| > 0 {
      var init := s[..|s| - 1];
      WithinMembers(init, lo, hi);
      assert s == init + [s[|s| - 1]];
    }
  }

  /** The transactions that enter the analytics: those dated in the window. */
  function Recent(s: seq<Transaction>, now: int, months: int): seq<Transaction> {
    Within(s, WindowStart(now, months), now)
  }

  /** One entry of the cash-flow series: the totals of one calendar month. */
  datatype MonthBucket = MonthBucket(month: int, income: real, expense: real, net: real)

  /** The bucket of month `m`: the income and expense dated in `m`, and their difference. */
  function Bucket(recent: seq<Transaction>, m: int): (b: MonthBucket)
    ensures b.month == m && b.net == b.income - b.expense
  {
    var month := Within(recent, m, m);
    var income := KindTotal(month, Income);
    var expense := KindTotal(month, Expense);
    MonthBucket(m, income, expense, income - expense)
  }

  /** The amount of kind `k` a bucket records. */
  function BucketAmount(b: MonthBucket, k: Kind): real {
    if k == Income then b.income else b.expense
  }

  /** The amounts of kind `k` summed over a series of buckets. */
  function FlowTotal(flow: seq<MonthBucket>, k: Kind): real {
    if |flow| == 0 then 0.0 else FlowTotal(flow[..|flow| - 1], k) + BucketAmount(flow[|flow| - 1], k)
  }

  /**
   * The cash-flow series as a whole: one bucket per month of the window,
   * oldest first, each holding that month's totals (zero when nothing is dated in it).
   */
  function Series(recent: seq<Transaction>, now: int, months: nat): (flow: seq<MonthBucket>)
    ensures |flow| == months
    ensures forall k :: 0 <= k < months ==> flow[k] == Bucket(recent, WindowStart(now, months) + k)
  {
    seq(months, k requires 0 <= k < months => Bucket(recent, WindowStart(now, months) + k))
  }

  /**
   * The loop of `useTransactionAnalytics`: for i = 0 .. months - 1 it computes
   * the bucket of the month i months back and puts it in front of the list.
   */
  method BuildSeries(recent: seq<Transaction>, now: int, months: nat) returns (flow: seq<MonthBucket>)
    ensures flow == Series(recent, now, months)
  {
    flow := [];
    var i := 0;
    while i < months
      invariant 0 <= i <= months
      invariant flow == Series(recent, now, i)
    {
      SeriesCons(recent, now, i);
      flow := [Bucket(recent, now - i)] + flow;
      i := i + 1;
    }
  }

  /** The series one month longer starts with the bucket of the month before its old start. */
  lemma SeriesCons(recent: seq<Transaction>, now: int, months: nat)
    ensures Series(recent, now, months + 1) == [Bucket(recent, now - months)] + Series(recent, now, months)
  {
    var longer := Series(recent, now, months + 1);
    var shorter := Series(recent, now, months);
    forall k | 0 <= k < months + 1
      ensures longer[k] == ([Bucket(recent, now - months)] + shorter)[k]
    {
      if k > 0 {
        assert ([Bucket(recent, now - months)] + shorter)[k] == shorter[k - 1];
      }
    }
  }

  /** A window with its months in the wrong order holds nothing. */
  lemma WithinEmpty(s: seq<Transaction>, lo: int, hi: int)
    requires hi < lo
    ensures Within(s, lo, hi) == []
  {
  }

  /** Filtering twice is filtering once by both ranges. */
  lemma {:induction false} WithinWithin(s: seq<Transaction>, lo: int, hi: int, lo': int, hi': int)
    requires lo <= lo' && hi' <= hi
    ensures Within(Within(s, lo, hi), lo', hi') == Within(s, lo', hi')
    decreases |s|
  {
    if |s| > 0 {
      var init := s[..|s| - 1];
      var last := s[|s| - 1];
      WithinWithin(init, lo, hi, lo', hi');
      WithinAppend(Within(init, lo, hi), if InMonths(last, lo, hi) then [last] else [], lo', hi');
    }
  }

  /** Filtering distributes over concatenation. */
  lemma {:induction false} WithinAppend(a: seq<Transaction>, b: seq<Transaction>, lo: int, hi: int)
    ensures Within(a + b, lo, hi) == Within(a, lo, hi) + Within(b, lo, hi)
    decreases |b|
  {
    if |b| == 0 {
      assert a + b == a;
    } else {
      assert (a + b)[..|a + b| - 1] == a + b[..|b| - 1];
      WithinAppend(a, b[..|b| - 1], lo, hi);
    }
  }

  /** The total over months `lo` .. `hi` is the total over `lo` .. `hi - 1` plus month `hi`. */
  lemma {:induction false} WithinSplit(s: seq<Transaction>, lo: int, hi: int, k: Kind)
    requires lo <= hi
    ensures KindTotal(Within(s, lo, hi), k) == KindTotal(Within(s, lo, hi - 1), k) + KindTotal(Within(s, hi, hi), k)
    decreases |s|
  {
    if |s| > 0 {
      var init := s[..|s| - 1];
      var last := s[|s| - 1];
      WithinSplit(init, lo, hi, k);
      var tail := if InMonths(last, lo, hi) then [last] else [];
      var tail' := if InMonths(last, lo, hi - 1) then [last] else [];
      var tail'' := if InMonths(last, hi, hi) then [last] else [];
      KindTotalAppend(Within(init, lo, hi), tail, k);
      KindTotalAppend(Within(init, lo, hi - 1), tail', k);
      KindTotalAppend(Within(init, hi, hi), tail'', k);
      assert KindTotal(tail, k) == KindTotal(tail', k) + KindTotal(tail'', k) by {
        assert [last][..0] == [];
      }
    }
  }

  /** The series of `months` buckets ending at `now` is the one ending a month earlier plus the bucket of `now`. */
  lemma SeriesSnoc(recent: seq<Transaction>, now: int, months: nat)
    requires months >= 1
    ensures Series(recent, now, months) == Series(recent, now - 1, months - 1) + [Bucket(recent, now)]
  {
  }

  /**
   * The buckets tile their range: summed over the series, the amounts of
   * kind `k` give the total of the transactions dated anywhere in it.
   */
  lemma {:induction false} SeriesTiles(recent: seq<Transaction>, now: int, months: nat, k: Kind)
    ensures FlowTotal(Series(recent, now, months), k) == KindTotal(Within(recent, WindowStart(now, months), now), k)
    decreases months
  {
    if months == 0 {
      WithinEmpty(recent, WindowStart(now, months), now);
    } else {
      var lo := WindowStart(now, months);
      assert WindowStart(now - 1, months - 1) == lo;
      var prev := Series(recent, now - 1, months - 1);
      var b := Bucket(recent, now);
      SeriesSnoc(recent, now, months);
      assert (prev + [b])[..|prev|] == prev;
      SeriesTiles(recent, now - 1, months - 1, k);
      WithinSplit(recent, lo, now, k);
      calc {
        FlowTotal(Series(recent, now, months), k);
        FlowTotal(prev + [b], k);
        FlowTotal(prev, k) + BucketAmount(b, k);
        KindTotal(Within(recent, lo, now - 1), k) + KindTotal(Within(recent, now, now), k);
        KindTotal(Within(recent, lo, now), k);
      }
    }
  }

  /**
   * The bucket of month `m` of the series over the window's transactions
   * holds exactly the transactions of the whole list dated in `m`.
   */
  lemma SeriesSeesWholeMonth(s: seq<Transaction>, now: int, months: nat, k: int, m: int)
    requires 0 <= k < months && m == WindowStart(now, months) + k
    ensures Series(Recent(s, now, months), now, months)[k].income == KindTotal(Within(s, m, m), Income)
    ensures Series(Recent(s, now, months), now, months)[k].expense == KindTotal(Within(s, m, m), Expense)
  {
    WithinWithin(s, WindowStart(now, months), now, m, m);
  }

  /** A month of the window with nothing dated in it gets an all-zero bucket. */
  lemma SeriesZeroFilled(s: seq<Transaction>, now: int, months: nat, k: int, m: int)
    requires 0 <= k < months && m == WindowStart(now, months) + k
    requires forall t :: t in s ==> !InMonths(t, m, m)
    ensures Series(Recent(s, now, months), now, months)[k].income == 0.0
    ensures Series(Recent(s, now, months), now, months)[k].expense == 0.0
    ensures Series(Recent(s, now, months), now, months)[k].net == 0.0
  {
    SeriesSeesWholeMonth(s, now, months, k, m);
    WithinMembers(s, m, m);
    assert Within(s, m, m) == [];
  }

  /** A transaction outside the months is invisible to the filter wherever it sits. */
  lemma WithinSkips(a: seq<Transaction>, t: Transaction, b: seq<Transaction>, lo: int, hi: int)
    requires !InMonths(t, lo, hi)
    ensures Within(a + [t] + b, lo, hi) == Within(a + b, lo, hi)
  {
    WithinAppend(a + [t], b, lo, hi);
    WithinAppend(a, [t], lo, hi);
    WithinAppend(a, b, lo, hi);
    assert Within([t], lo, hi) == [] by {
      assert [t][..0] == [];
    }
  }
}
