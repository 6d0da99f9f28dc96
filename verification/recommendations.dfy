/**
 * The recommendation list under the health report: one advisory line for
 * each unhealthy metric, in the report's metric order, and a congratulation
 * when every metric is healthy.
 */
module Recommendations {
  import opened FinancialHealth
  import opened AnalysisPage

  /** A list item: the advisory for one metric, or the congratulation. */
  datatype Line = Advisory(metric: MetricName) | Congratulation

  /** The text of each list item. */
  function Text(l: Line): string {
    match l
    case Advisory(Liquidity) => "Tingkatkan likuiditas dengan menyimpan lebih banyak uang tunai untuk keadaan darurat."
    case Advisory(CurrentRatio) => "Kurangi utang jangka pendek atau tingkatkan aset lancar Anda."
    case Advisory(SavingsRatio) => "Tingkatkan porsi tabungan dari pendapatan Anda."
    case Advisory(DebtRatio) => "Kurangi total utang Anda atau tingkatkan aset untuk menyeimbangkan rasio."
    case Advisory(DebtServiceRatio) => "Cari cara untuk mengurangi cicilan utang bulanan atau refinancing."
    case Advisory(SolvencyRatio) => "Fokus pada pengurangan utang untuk meningkatkan kekayaan bersih."
    case Advisory(InvestmentRatio) => "Pertimbangkan untuk meningkatkan porsi aset investasi Anda."
    case Congratulation => "Keuangan Anda dalam kondisi sangat baik! Pertahankan kebiasaan keuangan yang baik."
  }

  /** The advisory for `n` if it is unhealthy, nothing otherwise. */
  function AdviceLine(r: Report, n: MetricName): seq<Line> {
    if !MetricOf(r, n).isHealthy then [Advisory(n)] else []
  }

  /** The list items, in the order they are rendered. */
  function Recommend(r: Report): (lines: seq<Line>)
    ensures |lines| >= 1
  {
    AdviceLine(r, Liquidity)
    + AdviceLine(r, CurrentRatio)
    + AdviceLine(r, SavingsRatio)
    + AdviceLine(r, DebtRatio)
    + AdviceLine(r, DebtServiceRatio)
    + AdviceLine(r, SolvencyRatio)
    + AdviceLine(r, InvestmentRatio)
    + (if AllHealthy(r) then [Congratulation] else [])
  }

  /** The unhealthy metrics among `names`, in order. */
  function Unhealthy(r: Report, names: seq<MetricName>): (u: seq<MetricName>)
    ensures |u| <= |names|
  {
    if names == [] then []
    else
      var last := names[|names| - 1];
      Unhealthy(r, names[..|names| - 1]) + (if MetricOf(r, last).isHealthy then [] else [last])
  }

  function AdviceFor(ns: seq<MetricName>): (lines: seq<Line>)
    ensures |lines| == |ns|
    ensures forall i :: 0 <= i < |ns| ==> lines[i] == Advisory(ns[i])
  {
    seq(|ns|, i requires 0 <= i < |ns| => Advisory(ns[i]))
  }

  lemma {:induction false} UnhealthyMembers(r: Report, names: seq<MetricName>, n: MetricName)
    ensures n in Unhealthy(r, names) <==> n in names && !MetricOf(r, n).isHealthy
  {
    if names != [] {
      UnhealthyMembers(r, names[..|names| - 1], n);
      assert names == names[..|names| - 1] + [names[|names| - 1]];
    }
  }

  /** Healthy and unhealthy metrics together account for every name. */
  lemma {:induction false} UnhealthyCount(r: Report, names: seq<MetricName>)
    ensures |Unhealthy(r, names)| + CountHealthy(r, names) == |names|
  {
    if names != [] {
      UnhealthyCount(r, names[..|names| - 1]);
    }
  }

  lemma UnhealthySnoc(r: Report, names: seq<MetricName>, n: MetricName)
    ensures Unhealthy(r, names + [n]) == Unhealthy(r, names) + Unhealthy(r, [n])
  {
    assert (names + [n])[..|names|] == names;
    assert [n][..0] == [];
  }

  lemma AdviceForAppend(a: seq<MetricName>, b: seq<MetricName>)
    ensures AdviceFor(a + b) == AdviceFor(a) + AdviceFor(b)
  {
  }

  lemma AdviceForLine(r: Report, n: MetricName)
    ensures AdviceFor(Unhealthy(r, [n])) == AdviceLine(r, n)
  {
    assert [n][..0] == [];
  }

  /** One step of the rendered list: the advisories for `names` followed by the one for `n`. */
  lemma AdviceStep(r: Report, names: seq<MetricName>, n: MetricName)
    ensures AdviceFor(Unhealthy(r, names + [n])) == AdviceFor(Unhealthy(r, names)) + AdviceLine(r, n)
  {
    UnhealthySnoc(r, names, n);
    AdviceForAppend(Unhealthy(r, names), Unhealthy(r, [n]));
    AdviceForLine(r, n);
  }

  /**
   * The rendered list is the advisories of the unhealthy metrics in report
   * order, followed by the congratulation when all are healthy.
   */
  lemma RecommendByFilter(r: Report)
    ensures Recommend(r) == AdviceFor(Unhealthy(r, MetricNames))
      + (if AllHealthy(r) then [Congratulation] else [])
  {
    var n1 := [Liquidity];
    var n2 := n1 + [CurrentRatio];
    var n3 := n2 + [SavingsRatio];
    var n4 := n3 + [DebtRatio];
    var n5 := n4 + [DebtServiceRatio];
    var n6 := n5 + [SolvencyRatio];
    var n7 := n6 + [InvestmentRatio];
    AdviceStep(r, [], Liquidity);
    assert [] + [Liquidity] == n1;
    var a1 := AdviceLine(r, Liquidity);
    assert AdviceFor(Unhealthy(r, n1)) == a1;
    AdviceStep(r, n1, CurrentRatio);
    var a2 := a1 + AdviceLine(r, CurrentRatio);
    assert AdviceFor(Unhealthy(r, n2)) == a2;
    AdviceStep(r, n2, SavingsRatio);
    var a3 := a2 + AdviceLine(r, SavingsRatio);
    assert AdviceFor(Unhealthy(r, n3)) == a3;
    AdviceStep(r, n3, DebtRatio);
    var a4 := a3 + AdviceLine(r, DebtRatio);
    assert AdviceFor(Unhealthy(r, n4)) == a4;
    AdviceStep(r, n4, DebtServiceRatio);
    var a5 := a4 + AdviceLine(r, DebtServiceRatio);
    assert AdviceFor(Unhealthy(r, n5)) == a5;
    AdviceStep(r, n5, SolvencyRatio);
    var a6 := a5 + AdviceLine(r, SolvencyRatio);
    assert AdviceFor(Unhealthy(r, n6)) == a6;
    AdviceStep(r, n6, InvestmentRatio);
    var a7 := a6 + AdviceLine(r, InvestmentRatio);
    assert AdviceFor(Unhealthy(r, n7)) == a7;
    assert n7 == MetricNames;
  }

  /** An advisory is listed exactly when its metric is unhealthy. */
  lemma AdviceIffUnhealthy(r: Report, n: MetricName)
    ensures Advisory(n) in Recommend(r) <==> !MetricOf(r, n).isHealthy
  {
    RecommendByFilter(r);
    SevenMetrics();
    UnhealthyMembers(r, MetricNames, n);
    var u := Unhealthy(r, MetricNames);
    if !MetricOf(r, n).isHealthy {
      var i :| 0 <= i < |u| && u[i] == n;
      assert Recommend(r)[i] == Advisory(n);
    }
  }

  /** The congratulation is listed exactly when every metric is healthy, and then it is the only line. */
  lemma CongratulationAlone(r: Report)
    ensures Congratulation in Recommend(r) <==> AllHealthy(r)
    ensures AllHealthy(r) ==> Recommend(r) == [Congratulation]
  {
    RecommendByFilter(r);
    var u := Unhealthy(r, MetricNames);
    UnhealthyCount(r, MetricNames);
    CountFull(r, MetricNames);
  }

  /** The list holds one line per unhealthy metric, or the single congratulation. */
  lemma RecommendationCount(r: Report)
    ensures |Recommend(r)| == if HealthyCount(r) < 7 then 7 - HealthyCount(r) else 1
  {
    RecommendByFilter(r);
    UnhealthyCount(r, MetricNames);
    CountFull(r, MetricNames);
  }
}
