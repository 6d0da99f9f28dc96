/**
 * The nine balance-sheet figures of a `financial_data` row, entered on the
 * financial-data page, stored one row per user, and fed to the health report.
 */
module Figures {

  datatype Figures = Figures(
    cashEquivalents: real,
    monthlyExpenses: real,
    shortTermDebt: real,
    savings: real,
    totalIncome: real,
    totalDebt: real,
    totalAssets: real,
    debtPayment: real,
    investmentAssets: real)

  /** The names of the nine figures, as the form and the table know them. */
  datatype Field =
    | CashEquivalents | MonthlyExpenses | ShortTermDebt | Savings | TotalIncome
    | TotalDebt | TotalAssets | DebtPayment | InvestmentAssets

  /** The fields in the order the form schema declares them. */
  const FormOrder: seq<Field> := [CashEquivalents, MonthlyExpenses, ShortTermDebt, Savings, TotalIncome,
                                 TotalDebt, TotalAssets, DebtPayment, InvestmentAssets]

  /** The column name of a field, which is also the path of its form errors. */
  function ColumnName(f: Field): string {
    match f
    case CashEquivalents => "cash_equivalents"
    case MonthlyExpenses => "monthly_expenses"
    case ShortTermDebt => "short_term_debt"
    case Savings => "savings"
    case TotalIncome => "total_income"
    case TotalDebt => "total_debt"
    case TotalAssets => "total_assets"
    case DebtPayment => "debt_payment"
    case InvestmentAssets => "investment_assets"
  }

  function Get(v: Figures, f: Field): real {
    match f
    case CashEquivalents => v.cashEquivalents
    case MonthlyExpenses => v.monthlyExpenses
    case ShortTermDebt => v.shortTermDebt
    case Savings => v.savings
    case TotalIncome => v.totalIncome
    case TotalDebt => v.totalDebt
    case TotalAssets => v.totalAssets
    case DebtPayment => v.debtPayment
    case InvestmentAssets => v.investmentAssets
  }

  /** `v` with field `f` replaced by `x`: what one input's change handler does. */
  function Set(v: Figures, f: Field, x: real): (r: Figures)
    ensures Get(r, f) == x
    ensures forall g :: g != f ==> Get(r, g) == Get(v, g)
  {
    match f
    case CashEquivalents => v.(cashEquivalents := x)
    case MonthlyExpenses => v.(monthlyExpenses := x)
    case ShortTermDebt => v.(shortTermDebt := x)
    case Savings => v.(savings := x)
    case TotalIncome => v.(totalIncome := x)
    case TotalDebt => v.(totalDebt := x)
    case TotalAssets => v.(totalAssets := x)
    case DebtPayment => v.(debtPayment := x)
    case InvestmentAssets => v.(investmentAssets := x)
  }

  /** Every figure 0: the initial state of both forms. */
  const Zero: Figures := Figures(0.0, 0.0, 0.0, 0.0, 0.0, 0.0, 0.0, 0.0, 0.0)

  /** The form order names every field once. */
  lemma FormOrderComplete()
    ensures |FormOrder| == 9
    ensures forall f :: f in FormOrder
    ensures forall i, j :: 0 <= i < j < |FormOrder| ==> FormOrder[i] != FormOrder[j]
  {
    forall f ensures f in FormOrder {
      match f
      case CashEquivalents => assert FormOrder[0] == f;
      case MonthlyExpenses => assert FormOrder[1] == f;
      case ShortTermDebt => assert FormOrder[2] == f;
      case Savings => assert FormOrder[3] == f;
      case TotalIncome => assert FormOrder[4] == f;
      case TotalDebt => assert FormOrder[5] == f;
      case TotalAssets => assert FormOrder[6] == f;
      case DebtPayment => assert FormOrder[7] == f;
      case InvestmentAssets => assert FormOrder[8] == f;
    }
  }
}
