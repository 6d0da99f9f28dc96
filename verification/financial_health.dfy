/**
 * The financial-health report: seven ratios computed from the nine
 * balance-sheet figures, each with a fixed rule text and a threshold verdict.
 * Only the current ratio guards its denominator; the other divisions may
 * divide by zero and then carry an infinity or NaN into their verdicts.
 */
module FinancialHealth {
  import opened JsNumber
  import opened Figures

  datatype MetricName =
    | Liquidity | CurrentRatio | SavingsRatio | DebtRatio | DebtServiceRatio | SolvencyRatio | InvestmentRatio

  /** The metrics in the order the report declares them. */
  const MetricNames: seq<MetricName> :=
    [Liquidity, CurrentRatio, SavingsRatio, DebtRatio, DebtServiceRatio, SolvencyRatio, InvestmentRatio]

  datatype Metric = Metric(value: Num, isHealthy: bool, rule: string)

  datatype Report = Report(
    liquidity: Metric,
    currentRatio: Metric,
    savingsRatio: Metric,
    debtRatio: Metric,
    debtServiceRatio: Metric,
    solvencyRatio: Metric,
    investmentRatio: Metric)

  function MetricOf(r: Report, n: MetricName): Metric {
    match n
    case Liquidity => r.liquidity
    case CurrentRatio => r.currentRatio
    case SavingsRatio => r.savingsRatio
    case DebtRatio => r.debtRatio
    case DebtServiceRatio => r.debtServiceRatio
    case SolvencyRatio => r.solvencyRatio
    case InvestmentRatio => r.investmentRatio
  }

  /** The rule text shown beside each metric. */
  function Rule(n: MetricName): string {
    match n
    case Liquidity => "Kas / Pengeluaran Bulanan ≥ 3 dan ≤ 6"
    case CurrentRatio => "Kas / Utang Jangka Pendek > 1"
    case SavingsRatio => "Tabungan / Total Pendapatan > 10%"
    case DebtRatio => "Total Utang / Total Aset < 50%"
    case DebtServiceRatio => "Cicilan Utang / Total Pendapatan < 30%"
    case SolvencyRatio => "Kekayaan Bersih / Total Aset > 50%"
    case InvestmentRatio => "Aset Investasi / Total Aset > 50%"
  }

  /** The threshold table: when a value counts as healthy for each metric. */
  predicate Healthy(n: MetricName, v: Num) {
    match n
    case Liquidity => AtLeast(v, 3.0)
    case CurrentRatio => Above(v, 1.0)
    case SavingsRatio => Above(v, 10.0)
    case DebtRatio => Below(v, 50.0)
    case DebtServiceRatio => Below(v, 30.0)
    case SolvencyRatio => Above(v, 50.0)
    case InvestmentRatio => Above(v, 50.0)
  }

  /** `shortTermDebt || 1`: a zero divisor is replaced by 1. */
  function OrOne(x: real): real {
    if x != 0.0 then x else 1.0
  }

  function Calculate(f: Figures): (r: Report)
    ensures forall n :: MetricOf(r, n).rule == Rule(n)
    ensures forall n :: MetricOf(r, n).isHealthy == Healthy(n, MetricOf(r, n).value)
  {
    var liquidity := Quotient(f.cashEquivalents, f.monthlyExpenses);
    var current := Quotient(f.cashEquivalents, OrOne(f.shortTermDebt));
    var savings := Percent(Quotient(f.savings, f.totalIncome));
    var debt := Percent(Quotient(f.totalDebt, f.totalAssets));
    var debtService := Percent(Quotient(f.debtPayment, f.totalIncome));
    var solvency := Percent(Quotient(f.totalAssets - f.totalDebt, f.totalAssets));
    var investment := Percent(Quotient(f.investmentAssets, f.totalAssets));
    Report(
      Metric(liquidity, AtLeast(liquidity, 3.0), Rule(Liquidity)),
      Metric(current, Above(current, 1.0), Rule(CurrentRatio)),
      Metric(savings, Above(savings, 10.0), Rule(SavingsRatio)),
      Metric(debt, Below(debt, 50.0), Rule(DebtRatio)),
      Metric(debtService, Below(debtService, 30.0), Rule(DebtServiceRatio)),
      Metric(solvency, Above(solvency, 50.0), Rule(SolvencyRatio)),
      Metric(investment, Above(investment, 50.0), Rule(InvestmentRatio)))
  }

  /** The report lists seven distinct metrics, one for each name. */
  lemma SevenMetrics()
    ensures |MetricNames| == 7
    ensures forall n :: n in MetricNames
    ensures forall i, j :: 0 <= i < j < |MetricNames| ==> MetricNames[i] != MetricNames[j]
  {
    forall n ensures n in MetricNames {
      match n
      case Liquidity => assert MetricNames[0] == n;
      case CurrentRatio => assert MetricNames[1] == n;
      case SavingsRatio => assert MetricNames[2] == n;
      case DebtRatio => assert MetricNames[3] == n;
      case DebtServiceRatio => assert MetricNames[4] == n;
      case SolvencyRatio => assert MetricNames[5] == n;
      case InvestmentRatio => assert MetricNames[6] == n;
    }
  }

  /** The rule texts do not depend on the figures. */
  lemma RulesAreFixed(f: Figures, g: Figures, n: MetricName)
    ensures MetricOf(Calculate(f), n).rule == MetricOf(Calculate(g), n).rule
  {
  }

  /**
   * Each value inverts its formula whenever its divisor is not zero: times
   * the divisor it gives back the numerator. The current ratio's divisor is
   * never zero.
   */
  lemma CashRatiosInvert(f: Figures)
    ensures f.monthlyExpenses != 0.0 ==>
      Calculate(f).liquidity.value.Finite? &&
      Calculate(f).liquidity.value.value * f.monthlyExpenses == f.cashEquivalents
    ensures Calculate(f).currentRatio.value.Finite?
    ensures Calculate(f).currentRatio.value.value * OrOne(f.shortTermDebt) == f.cashEquivalents
  {
    QuotientInverse(f.cashEquivalents, f.monthlyExpenses);
    QuotientInverse(f.cashEquivalents, OrOne(f.shortTermDebt));
  }

  /** Savings and debt service are percentages of the same divisor, the total income. */
  lemma IncomeRatiosInvert(f: Figures)
    requires f.totalIncome != 0.0
    ensures Calculate(f).savingsRatio.value.Finite? && Calculate(f).debtServiceRatio.value.Finite?
    ensures Calculate(f).savingsRatio.value.value * f.totalIncome == f.savings * 100.0
    ensures Calculate(f).debtServiceRatio.value.value * f.totalIncome == f.debtPayment * 100.0
  {
    var r := Calculate(f);
    assert r.savingsRatio.value == Percent(Quotient(f.savings, f.totalIncome));
    assert r.debtServiceRatio.value == Percent(Quotient(f.debtPayment, f.totalIncome));
    ScaledQuotient(f.savings, f.totalIncome);
    ScaledQuotient(f.debtPayment, f.totalIncome);
  }

  /** Debt, solvency and investment are percentages of the total assets. */
  lemma AssetRatiosInvert(f: Figures)
    requires f.totalAssets != 0.0
    ensures Calculate(f).debtRatio.value.Finite? && Calculate(f).solvencyRatio.value.Finite?
    ensures Calculate(f).investmentRatio.value.Finite?
    ensures Calculate(f).debtRatio.value.value * f.totalAssets == f.totalDebt * 100.0
    ensures Calculate(f).solvencyRatio.value.value * f.totalAssets == (f.totalAssets - f.totalDebt) * 100.0
    ensures Calculate(f).investmentRatio.value.value * f.totalAssets == f.investmentAssets * 100.0
  {
    var r := Calculate(f);
    assert r.debtRatio.value == Percent(Quotient(f.totalDebt, f.totalAssets));
    assert r.solvencyRatio.value == Percent(Quotient(f.totalAssets - f.totalDebt, f.totalAssets));
    assert r.investmentRatio.value == Percent(Quotient(f.investmentAssets, f.totalAssets));
    ScaledQuotient(f.totalDebt, f.totalAssets);
    ScaledQuotient(f.totalAssets - f.totalDebt, f.totalAssets);
    ScaledQuotient(f.investmentAssets, f.totalAssets);
  }

  lemma ScaledQuotient(a: real, b: real)
    requires b != 0.0
    ensures Percent(Quotient(a, b)).Finite?
    ensures Percent(Quotient(a, b)).value * b == a * 100.0
  {
    QuotientInverse(a, b);
    assert (a / b) * 100.0 * b == (a / b) * b * 100.0;
  }

  /** A zero divisor leaves its ratios without a finite value; the current ratio is never affected. */
  lemma ZeroDivisors(f: Figures)
    ensures f.monthlyExpenses == 0.0 <==> !Calculate(f).liquidity.value.Finite?
    ensures f.totalIncome == 0.0 <==> !Calculate(f).savingsRatio.value.Finite?
    ensures f.totalIncome == 0.0 <==> !Calculate(f).debtServiceRatio.value.Finite?
    ensures f.totalAssets == 0.0 <==> !Calculate(f).debtRatio.value.Finite?
    ensures f.totalAssets == 0.0 <==> !Calculate(f).solvencyRatio.value.Finite?
    ensures f.totalAssets == 0.0 <==> !Calculate(f).investmentRatio.value.Finite?
    ensures Calculate(f).currentRatio.value.Finite?
  {
  }

  /** With no short-term debt the current ratio is the cash amount itself. */
  lemma CurrentRatioWithoutDebt(f: Figures)
    requires f.shortTermDebt == 0.0
    ensures Calculate(f).currentRatio.value == Finite(f.cashEquivalents)
  {
    assert f.cashEquivalents / 1.0 == f.cashEquivalents;
  }

  lemma Complement(a: real, d: real)
    requires a != 0.0
    ensures (a - d) / a * 100.0 + d / a * 100.0 == 100.0
  {
    assert (a - d) / a + d / a == a / a;
  }

  /** Over a non-zero asset total, net worth and debt split 100 percent between them. */
  lemma SolvencyComplementsDebt(f: Figures)
    requires f.totalAssets != 0.0
    ensures Calculate(f).solvencyRatio.value.Finite? && Calculate(f).debtRatio.value.Finite?
    ensures Calculate(f).solvencyRatio.value.value + Calculate(f).debtRatio.value.value == 100.0
  {
    Complement(f.totalAssets, f.totalDebt);
  }

  /**
   * The debt verdict and the solvency verdict always agree, also when the
   * asset total is 0 and both values are infinite or NaN.
   */
  lemma DebtVerdictMatchesSolvency(f: Figures)
    ensures Calculate(f).debtRatio.isHealthy <==> Calculate(f).solvencyRatio.isHealthy
  {
    if f.totalAssets != 0.0 {
      SolvencyComplementsDebt(f);
    }
  }

  /**
   * Liquidity is healthy from 3 months of expenses upwards, with no upper
   * bound; with no expenses any positive cash is healthy.
   */
  lemma LiquidityVerdict(f: Figures)
    ensures f.monthlyExpenses > 0.0 ==>
      (Calculate(f).liquidity.isHealthy <==> f.cashEquivalents >= 3.0 * f.monthlyExpenses)
    ensures f.monthlyExpenses < 0.0 ==>
      (Calculate(f).liquidity.isHealthy <==> f.cashEquivalents <= 3.0 * f.monthlyExpenses)
    ensures f.monthlyExpenses == 0.0 ==>
      (Calculate(f).liquidity.isHealthy <==> f.cashEquivalents > 0.0)
  {
    var m := Calculate(f).liquidity;
    assert m.isHealthy == AtLeast(Quotient(f.cashEquivalents, f.monthlyExpenses), 3.0);
    QuotientAtLeast(f.cashEquivalents, f.monthlyExpenses, 3.0);
  }

  /** `a / b >= c` cleared of the division, for each sign of `b`. */
  lemma QuotientAtLeast(a: real, b: real, c: real)
    ensures b > 0.0 ==> (AtLeast(Quotient(a, b), c) <==> a >= c * b)
    ensures b < 0.0 ==> (AtLeast(Quotient(a, b), c) <==> a <= c * b)
    ensures b == 0.0 ==> (AtLeast(Quotient(a, b), c) <==> a > 0.0)
  {
    if b != 0.0 {
      QuotientInverse(a, b);
      var q := a / b;
      assert q * b - c * b == (q - c) * b;
      if b > 0.0 {
        assert q >= c <==> (q - c) * b >= 0.0;
      } else {
        assert q >= c <==> (q - c) * b <= 0.0;
      }
    }
  }

  /** The liquidity threshold itself, and a value far above the advertised "≤ 6", both count as healthy. */
  lemma LiquidityHasNoUpperBound()
    ensures Calculate(Zero.(cashEquivalents := 3.0, monthlyExpenses := 1.0)).liquidity.isHealthy
    ensures Calculate(Zero.(cashEquivalents := 10.0, monthlyExpenses := 1.0)).liquidity.isHealthy
    ensures !Calculate(Zero.(cashEquivalents := 2.0, monthlyExpenses := 1.0)).liquidity.isHealthy
  {
    LiquidityVerdict(Zero.(cashEquivalents := 3.0, monthlyExpenses := 1.0));
    LiquidityVerdict(Zero.(cashEquivalents := 10.0, monthlyExpenses := 1.0));
    LiquidityVerdict(Zero.(cashEquivalents := 2.0, monthlyExpenses := 1.0));
  }

  /**
   * On all-zero figures, the page's state before any input, every quotient
   * but the current ratio is 0 / 0 and no metric is healthy.
   */
  lemma ZeroFiguresAreUnhealthy()
    ensures forall n :: !MetricOf(Calculate(Zero), n).isHealthy
    ensures Calculate(Zero).currentRatio.value == Finite(0.0)
  {
  }
}
