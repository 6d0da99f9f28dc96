/**
 * The financial-data page: a form over the nine balance-sheet figures, each
 * of which must not be negative, initialised to zeros and overwritten by the
 * user's stored row once it has loaded.
 */
module FinancialData {
  import opened Prelude
  import opened Figures

  /** A `financial_data` row as stored for one user. */
  datatype Row = Row(
    id: string,
    cashEquivalents: real,
    createdAt: Option<string>,
    debtPayment: real,
    investmentAssets: real,
    monthlyExpenses: real,
    savings: real,
    shortTermDebt: real,
    totalAssets: real,
    totalDebt: real,
    totalIncome: real,
    updatedAt: Option<string>,
    userId: string)

  const NegativeMessage: string := "Nilai tidak boleh negatif"

  /** A validation issue: the field it is shown under and its message. */
  datatype Issue = Issue(path: Field, message: string)

  /** The issues for `fields`, in order: one for each negative figure. */
  function FieldIssues(v: Figures, fields: seq<Field>): (issues: seq<Issue>)
    ensures |issues| <= |fields|
    ensures forall i :: 0 <= i < |issues| ==> issues[i].message == NegativeMessage && Get(v, issues[i].path) < 0.0
  {
    if fields == [] then []
    else
      var f := fields[|fields| - 1];
      FieldIssues(v, fields[..|fields| - 1]) + (if Get(v, f) < 0.0 then [Issue(f, NegativeMessage)] else [])
  }

  /** The schema check of the whole form, field by field in form order. */
  function Validate(v: Figures): (issues: seq<Issue>)
    ensures |issues| <= 9
    ensures forall i :: 0 <= i < |issues| ==> issues[i].message == NegativeMessage && Get(v, issues[i].path) < 0.0
  {
    FieldIssues(v, FormOrder)
  }

  lemma {:induction false} FieldIssuesMembers(v: Figures, fields: seq<Field>, f: Field)
    ensures Issue(f, NegativeMessage) in FieldIssues(v, fields) <==> f in fields && Get(v, f) < 0.0
    ensures forall i :: 0 <= i < |FieldIssues(v, fields)| ==> FieldIssues(v, fields)[i].path in fields
  {
    if fields != [] {
      var init := fields[..|fields| - 1];
      FieldIssuesMembers(v, init, f);
      assert fields == init + [fields[|fields| - 1]];
    }
  }

  /** A figure is reported exactly when it is negative. */
  lemma IssueIffNegative(v: Figures, f: Field)
    ensures Issue(f, NegativeMessage) in Validate(v) <==> Get(v, f) < 0.0
  {
    FieldIssuesMembers(v, FormOrder, f);
    FormOrderComplete();
  }

  /** The form is accepted exactly when no figure is negative. */
  lemma AcceptedIffNonnegative(v: Figures)
    ensures Validate(v) == [] <==> forall f :: Get(v, f) >= 0.0
  {
    FormOrderComplete();
    if Validate(v) == [] {
      forall f ensures Get(v, f) >= 0.0 {
        IssueIffNegative(v, f);
      }
    } else {
      var i := Validate(v)[0];
      FieldIssuesMembers(v, FormOrder, i.path);
    }
  }

  /** The zero record the form starts from is accepted. */
  lemma DefaultAccepted()
    ensures Validate(Zero) == []
  {
    AcceptedIffNonnegative(Zero);
  }

  /** One negative figure is enough to refuse the form, whatever the other figures hold. */
  lemma NegativeFieldRefused(v: Figures, f: Field, x: real)
    requires x < 0.0
    ensures Issue(f, NegativeMessage) in Validate(Set(v, f, x))
  {
    IssueIffNegative(Set(v, f, x), f);
  }

  /** The form values copied out of a stored row. */
  function LoadIntoForm(row: Row): (v: Figures)
    ensures forall f :: Get(v, f) == Column(row, f)
  {
    Figures(row.cashEquivalents, row.monthlyExpenses, row.shortTermDebt, row.savings, row.totalIncome,
            row.totalDebt, row.totalAssets, row.debtPayment, row.investmentAssets)
  }

  /** The figure column of a stored row. */
  function Column(row: Row, f: Field): real {
    match f
    case CashEquivalents => row.cashEquivalents
    case MonthlyExpenses => row.monthlyExpenses
    case ShortTermDebt => row.shortTermDebt
    case Savings => row.savings
    case TotalIncome => row.totalIncome
    case TotalDebt => row.totalDebt
    case TotalAssets => row.totalAssets
    case DebtPayment => row.debtPayment
    case InvestmentAssets => row.investmentAssets
  }

  /** The row a save writes for the form values, keeping the row's identity. */
  function Saved(row: Row, v: Figures): Row {
    row.(cashEquivalents := v.cashEquivalents, monthlyExpenses := v.monthlyExpenses,
         shortTermDebt := v.shortTermDebt, savings := v.savings, totalIncome := v.totalIncome,
         totalDebt := v.totalDebt, totalAssets := v.totalAssets, debtPayment := v.debtPayment,
         investmentAssets := v.investmentAssets)
  }

  /** Loading copies every stored figure into its own form field unchanged. */
  lemma LoadCopiesEveryField(row: Row)
    ensures forall f :: Get(LoadIntoForm(row), f) == Column(row, f)
  {
  }

  /** Saving form values and loading them back gives the same values. */
  lemma SaveThenLoad(row: Row, v: Figures)
    ensures LoadIntoForm(Saved(row, v)) == v
    ensures Saved(row, v).id == row.id && Saved(row, v).userId == row.userId
  {
  }
}
