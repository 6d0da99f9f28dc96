/**
 * The expense breakdown of `useTransactionAnalytics`: the in-window expenses
 * grouped by category in an object keyed by category name, turned into a list
 * of amount / percentage entries, and sorted by amount, largest first.
 */
module CategoryBreakdown {
  import opened Prelude
  import opened Transactions

  /** One key of the grouping object: a category and the expense summed under it so far. */
  datatype CategoryTotal = CategoryTotal(category: string, amount: real)

  /** One entry of the breakdown the analytics return. */
  datatype CategoryShare = CategoryShare(category: string, amount: real, percentage: real)

  /** The sum of the expenses of `s` booked under category `c`. */
  function CategorySpend(s: seq<Transaction>, c: string): real {
    if |s| == 0 then 0.0
    else
      var last := s[|s| - 1];
      CategorySpend(s[..|s| - 1], c) + (if last.kind == Expense && last.category == c then last.amount else 0.0)
  }

  /** Some expense of `s` is booked under category `c`. */
  predicate SpentOn(s: seq<Transaction>, c: string) {
    exists i :: 0 <= i < |s| && s[i].kind == Expense && s[i].category == c
  }

  /** Spending under `c` in a list: in all but its last transaction, or in that one. */
  lemma SpentOnSnoc(s: seq<Transaction>)
    requires |s| > 0
    ensures forall c :: SpentOn(s, c) <==>
      SpentOn(s[..|s| - 1], c) || (s[|s| - 1].kind == Expense && s[|s| - 1].category == c)
  {
    var init := s[..|s| - 1];
    forall c | SpentOn(s, c)
      ensures SpentOn(init, c) || (s[|s| - 1].kind == Expense && s[|s| - 1].category == c)
    {
      var i :| 0 <= i < |s| && s[i].kind == Expense && s[i].category == c;
      if i < |s| - 1 {
        assert init[i] == s[i];
      }
    }
    forall c | SpentOn(init, c)
      ensures SpentOn(s, c)
    {
      var i :| 0 <= i < |init| && init[i].kind == Expense && init[i].category == c;
      assert s[i] == init[i];
    }
  }

  /** The categories of the grouping object, in its key order. */
  function Keys(g: seq<CategoryTotal>): (ks: seq<string>)
    ensures |ks| == |g|
    ensures forall i :: 0 <= i < |g| ==> ks[i] == g[i].category
  {
    if |g| == 0 then [] else [g[0].category] + Keys(g[1..])
  }

  /** The amount the grouping object holds for `c`, and 0 when `c` is not a key. */
  function AmountOf(g: seq<CategoryTotal>, c: string): real {
    if |g| == 0 then 0.0 else if g[0].category == c then g[0].amount else AmountOf(g[1..], c)
  }

  /** The amounts of the grouping object, summed. */
  function TotalOf(g: seq<CategoryTotal>): real {
    if |g| == 0 then 0.0 else g[0].amount + TotalOf(g[1..])
  }

  /**
   * One step of the `forEach`: a key that is not there yet is created with 0
   * at the end of the key order, then the amount is added to it.
   */
  function AddTo(g: seq<CategoryTotal>, c: string, amount: real): (r: seq<CategoryTotal>)
    ensures Keys(r) == if c in Keys(g) then Keys(g) else Keys(g) + [c]
    ensures forall x :: AmountOf(r, x) == AmountOf(g, x) + (if x == c then amount else 0.0)
    ensures TotalOf(r) == TotalOf(g) + amount
  {
    if |g| == 0 then [CategoryTotal(c, amount)]
    else if g[0].category == c then [CategoryTotal(c, g[0].amount + amount)] + g[1..]
    else
      var rest := AddTo(g[1..], c, amount);
      assert Keys([g[0]] + rest) == [g[0].category] + Keys(rest) by {
        assert ([g[0]] + rest)[1..] == rest;
      }
      [g[0]] + rest
  }

  /**
   * The grouping object after the expenses of `s` have been added in order:
   * one key per category some expense is booked under, each holding the sum
   * of that category, the amounts together adding up to the total expense.
   */
  function Tally(s: seq<Transaction>): (g: seq<CategoryTotal>)
    ensures Distinct(Keys(g))
    ensures forall c :: c in Keys(g) <==> SpentOn(s, c)
    ensures forall c :: AmountOf(g, c) == CategorySpend(s, c)
    ensures TotalOf(g) == KindTotal(s, Expense)
  {
    if |s| == 0 then []
    else
      var init := s[..|s| - 1];
      var last := s[|s| - 1];
      var g := Tally(init);
      SpentOnSnoc(s);
      if last.kind == Expense then
        (if last.category !in Keys(g) then DistinctSnoc(Keys(g), last.category); AddTo(g, last.category, last.amount)
         else AddTo(g, last.category, last.amount))
      else g
  }

  /** With keys free of repeats, every entry holds the amount looked up under its own key. */
  lemma {:induction false} AmountOfOwnKey(g: seq<CategoryTotal>, i: int)
    requires Distinct(Keys(g)) && 0 <= i < |g|
    ensures AmountOf(g, g[i].category) == g[i].amount
  {
    if i > 0 {
      assert Keys(g)[0] != Keys(g)[i];
      assert Keys(g[1..]) == Keys(g)[1..];
      AmountOfOwnKey(g[1..], i - 1);
    }
  }

  /** `amount / totalExpense * 100`, or 0 when the total is 0. */
  function Percentage(amount: real, total: real): (p: real)
    ensures total != 0.0 ==> p * total == amount * 100.0
    ensures total == 0.0 ==> p == 0.0
  {
    if total != 0.0 then amount / total * 100.0 else 0.0
  }

  /** `Object.entries(...).map(...)`: each key becomes an entry with its share of `total`. */
  function Shares(g: seq<CategoryTotal>, total: real): (r: seq<CategoryShare>)
    ensures |r| == |g|
    ensures forall i :: 0 <= i < |g| ==> r[i] == CategoryShare(g[i].category, g[i].amount, Percentage(g[i].amount, total))
  {
    if |g| == 0 then []
    else [CategoryShare(g[0].category, g[0].amount, Percentage(g[0].amount, total))] + Shares(g[1..], total)
  }

  /** Largest amount first. */
  predicate SortedByAmount(s: seq<CategoryShare>) {
    forall i, j :: 0 <= i < j < |s| ==> s[i].amount >= s[j].amount
  }

  /** Each entry without its percentage: the grouping object the entries came from. */
  function Totals(s: seq<CategoryShare>): (g: seq<CategoryTotal>)
    ensures |g| == |s|
    ensures forall i :: 0 <= i < |s| ==> g[i] == CategoryTotal(s[i].category, s[i].amount)
  {
    if |s| == 0 then [] else [CategoryTotal(s[0].category, s[0].amount)] + Totals(s[1..])
  }

  /** The categories of a list of entries, in order. */
  function ShareKeys(s: seq<CategoryShare>): (ks: seq<string>)
    ensures |ks| == |s|
    ensures forall i :: 0 <= i < |s| ==> ks[i] == s[i].category
  {
    Keys(Totals(s))
  }

  /** The amounts of a list of entries, summed. */
  function AmountSum(s: seq<CategoryShare>): real {
    if |s| == 0 then 0.0 else s[0].amount + AmountSum(s[1..])
  }

  /** The percentages of a list of entries, summed. */
  function PercentSum(s: seq<CategoryShare>): real {
    if |s| == 0 then 0.0 else s[0].percentage + PercentSum(s[1..])
  }

  /** An entry no smaller than the head of a sorted list can go in front of it. */
  lemma SortedCons(x: CategoryShare, t: seq<CategoryShare>)
    requires SortedByAmount(t)
    requires |t| == 0 || x.amount >= t[0].amount
    ensures SortedByAmount([x] + t)
  {
  }

  /**
   * Places `e` in a list sorted largest first, ahead of the entries with an
   * equal amount (it came before them in the list being sorted).
   */
  function Insert(e: CategoryShare, s: seq<CategoryShare>): (r: seq<CategoryShare>)
    requires SortedByAmount(s)
    ensures SortedByAmount(r)
    ensures multiset(r) == multiset(s) + multiset{e}
    ensures r[0] == e || r[0] == s[0]
  {
    if |s| == 0 || e.amount >= s[0].amount then
      SortedCons(e, s);
      [e] + s
    else
      var rest := Insert(e, s[1..]);
      assert s == [s[0]] + s[1..];
      assert |s| > 1 ==> s[0].amount >= s[1].amount;
      SortedCons(s[0], rest);
      [s[0]] + rest
  }

  /** Inserting adds the entry's amount to the sum of amounts. */
  lemma {:induction false} InsertAmountSum(e: CategoryShare, s: seq<CategoryShare>)
    requires SortedByAmount(s)
    ensures AmountSum(Insert(e, s)) == e.amount + AmountSum(s)
  {
    var r := Insert(e, s);
    if |s| == 0 || e.amount >= s[0].amount {
      assert r[1..] == s;
    } else {
      InsertAmountSum(e, s[1..]);
      assert r[1..] == Insert(e, s[1..]);
    }
  }

  /** Inserting adds the entry's percentage to the sum of percentages. */
  lemma {:induction false} InsertPercentSum(e: CategoryShare, s: seq<CategoryShare>)
    requires SortedByAmount(s)
    ensures PercentSum(Insert(e, s)) == e.percentage + PercentSum(s)
  {
    var r := Insert(e, s);
    if |s| == 0 || e.amount >= s[0].amount {
      assert r[1..] == s;
    } else {
      InsertPercentSum(e, s[1..]);
      assert r[1..] == Insert(e, s[1..]);
    }
  }

  /** The categories of a list with an entry in front. */
  lemma ShareKeysCons(x: CategoryShare, t: seq<CategoryShare>)
    ensures multiset(ShareKeys([x] + t)) == multiset{x.category} + multiset(ShareKeys(t))
  {
    assert ShareKeys([x] + t) == [x.category] + ShareKeys(t);
  }

  /** The categories of a non-empty list: its head's, then its tail's. */
  lemma ShareKeysHead(s: seq<CategoryShare>)
    requires |s| > 0
    ensures multiset(ShareKeys(s)) == multiset{s[0].category} + multiset(ShareKeys(s[1..]))
  {
    assert ShareKeys(s) == [s[0].category] + ShareKeys(s[1..]);
  }

  /** Putting the same entry in front of two lists keeps their categories one `c` apart. */
  lemma KeysStep(x: CategoryShare, u: seq<CategoryShare>, t: seq<CategoryShare>, c: string)
    requires multiset(ShareKeys(u)) == multiset(ShareKeys(t)) + multiset{c}
    ensures multiset(ShareKeys([x] + u)) == multiset{x.category} + multiset(ShareKeys(t)) + multiset{c}
  {
    ShareKeysCons(x, u);
  }

  /** Inserting adds the entry's category to the categories. */
  lemma {:induction false} InsertKeys(e: CategoryShare, s: seq<CategoryShare>)
    requires SortedByAmount(s)
    ensures multiset(ShareKeys(Insert(e, s))) == multiset(ShareKeys(s)) + multiset{e.category}
  {
    if |s| == 0 || e.amount >= s[0].amount {
      ShareKeysCons(e, s);
    } else {
      InsertKeys(e, s[1..]);
      KeysStep(s[0], Insert(e, s[1..]), s[1..], e.category);
      ShareKeysHead(s);
    }
  }

  /** Stable insertion sort, largest amount first: `.sort((a, b) => b.amount - a.amount)`. */
  function SortByAmount(s: seq<CategoryShare>): (r: seq<CategoryShare>)
    ensures SortedByAmount(r)
    ensures multiset(r) == multiset(s)
  {
    if |s| == 0 then []
    else
      assert s == [s[0]] + s[1..];
      Insert(s[0], SortByAmount(s[1..]))
  }

  /** Sorting moves entries around but keeps their categories. */
  lemma {:induction false} SortKeepsKeys(s: seq<CategoryShare>)
    ensures multiset(ShareKeys(SortByAmount(s))) == multiset(ShareKeys(s))
  {
    if |s| > 0 {
      SortKeepsKeys(s[1..]);
      InsertKeys(s[0], SortByAmount(s[1..]));
      ShareKeysHead(s);
    }
  }

  /** Sorting keeps the sum of the amounts and the sum of the percentages. */
  lemma {:induction false} SortKeepsSums(s: seq<CategoryShare>)
    ensures AmountSum(SortByAmount(s)) == AmountSum(s)
    ensures PercentSum(SortByAmount(s)) == PercentSum(s)
  {
    if |s| > 0 {
      var sorted := SortByAmount(s[1..]);
      SortKeepsSums(s[1..]);
      InsertAmountSum(s[0], sorted);
      InsertPercentSum(s[0], sorted);
    }
  }

  /** The entry list has the grouping object's keys, in the same order, and its amounts. */
  lemma {:induction false} SharesKeepGrouping(g: seq<CategoryTotal>, total: real)
    ensures ShareKeys(Shares(g, total)) == Keys(g)
    ensures AmountSum(Shares(g, total)) == TotalOf(g)
    ensures PercentSum(Shares(g, total)) == Percentage(TotalOf(g), total)
  {
    var r := Shares(g, total);
    if |g| > 0 {
      SharesKeepGrouping(g[1..], total);
      assert r[1..] == Shares(g[1..], total);
      PercentageAdds(g[0].amount, TotalOf(g[1..]), total);
    }
  }

  /** The share of a sum is the sum of the shares. */
  lemma PercentageAdds(a: real, b: real, total: real)
    ensures Percentage(a + b, total) == Percentage(a, total) + Percentage(b, total)
  {
    if total != 0.0 {
      assert (a + b) / total == a / total + b / total;
    }
  }

  /**
   * The breakdown of the expenses of `recent` against the total expense
   * `total`: the grouping object's entries with their shares, largest amount first.
   */
  function Breakdown(recent: seq<Transaction>, total: real): (r: seq<CategoryShare>)
    ensures SortedByAmount(r)
    ensures multiset(r) == multiset(Shares(Tally(recent), total))
  {
    SortByAmount(Shares(Tally(recent), total))
  }

  /** There is one entry per category some expense is booked under, and no other. */
  lemma BreakdownCategories(recent: seq<Transaction>, total: real)
    ensures Distinct(ShareKeys(Breakdown(recent, total)))
    ensures forall c :: c in ShareKeys(Breakdown(recent, total)) <==> SpentOn(recent, c)
  {
    var g := Tally(recent);
    var shares := Shares(g, total);
    var r := Breakdown(recent, total);
    SharesKeepGrouping(g, total);
    SortKeepsKeys(shares);
    SortKeepsSums(shares);
    DistinctPermutation(ShareKeys(r), ShareKeys(shares));
    forall c
      ensures c in ShareKeys(r) <==> c in ShareKeys(shares)
    {
      assert c in ShareKeys(r) <==> c in multiset(ShareKeys(r));
      assert c in ShareKeys(shares) <==> c in multiset(ShareKeys(shares));
    }
  }

  /** Each entry holds the sum of its category's expenses and that sum's share of `total`. */
  lemma BreakdownEntries(recent: seq<Transaction>, total: real)
    ensures forall x :: x in Breakdown(recent, total) ==>
      x.amount == CategorySpend(recent, x.category) && x.percentage == Percentage(x.amount, total)
  {
    var g := Tally(recent);
    var shares := Shares(g, total);
    var r := Breakdown(recent, total);
    forall x | x in r
      ensures x.amount == CategorySpend(recent, x.category) && x.percentage == Percentage(x.amount, total)
    {
      assert x in multiset(shares);
      var i :| 0 <= i < |shares| && shares[i] == x;
      AmountOfOwnKey(g, i);
    }
  }

  /** The amounts of the breakdown add up to the total expense. */
  lemma BreakdownAmounts(recent: seq<Transaction>, total: real)
    ensures AmountSum(Breakdown(recent, total)) == KindTotal(recent, Expense)
  {
    var g := Tally(recent);
    SharesKeepGrouping(g, total);
    SortKeepsKeys(Shares(g, total));
    SortKeepsSums(Shares(g, total));
  }

  /**
   * The percentages add up to the total expense's share of `total`: 100 when
   * `total` is the total expense and is not 0, and 0 when `total` is 0.
   */
  lemma BreakdownPercentages(recent: seq<Transaction>, total: real)
    ensures PercentSum(Breakdown(recent, total)) == Percentage(KindTotal(recent, Expense), total)
    ensures total != 0.0 && total == KindTotal(recent, Expense) ==> PercentSum(Breakdown(recent, total)) == 100.0
    ensures total == 0.0 ==> PercentSum(Breakdown(recent, total)) == 0.0
  {
    var g := Tally(recent);
    var shares := Shares(g, total);
    SharesKeepGrouping(g, total);
    SortKeepsKeys(shares);
    SortKeepsSums(shares);
    assert PercentSum(Breakdown(recent, total)) == Percentage(TotalOf(g), total);
    PercentageOfWhole(total);
  }

  /** The whole is 100 percent of itself. */
  lemma PercentageOfWhole(total: real)
    ensures total != 0.0 ==> Percentage(total, total) == 100.0
  {
    if total != 0.0 {
      assert total / total == 1.0;
    }
  }
}
