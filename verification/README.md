# rupiah-smart-tracker, modelled in Dafny

rupiah-smart-tracker is a personal-finance web app. Users record income and
expense transactions, enter nine balance-sheet figures, and read analytics
and health verdicts derived from them. This project models the app's pure
derivations as functional Dafny modules and proves what they guarantee.

- **Transaction analytics** are the body of the `useTransactionAnalytics` hook. It computes:
  - the trailing window of `months` calendar months;
  - income, expense and net totals;
  - the zero-filled, chronological cash-flow series;
  - the expense breakdown by category, sorted by amount;
  - current-month savings and the savings ratio.

  The modules are `CashFlow` and `CategoryBreakdown`, combined in `TransactionAnalytics`. `AnalyticsExample` works one month through them.
- **The financial-health report** (`calculateFinancialHealth`, module `FinancialHealth`) has seven ratios, each with a fixed rule text and a threshold verdict. Divisions follow JavaScript: `JsNumber` models the infinities and NaN that a zero divisor produces. On top of the report sit:
  - the analysis page's health score, colour band and results toggle (`AnalysisPage`);
  - the recommendation list (`Recommendations`).
- **Dashboard views:**
  - the transaction history filter (`TransactionHistory`);
  - the per-day chart grouping (`FinancialChart`);
  - the add-transaction state with its running balance (`Dashboard`).
- **The investment suggestion table** (`InvestmentAnalysis`).
- **Validators:**
  - the password-change schema (`PasswordForm`);
  - the nine-field balance-sheet form, with its defaults and the copying of stored data into it (`FinancialData`, on top of `Figures`).

Shared vocabulary lives in `Prelude` and `Transactions`:
- `Option`;
- distinctness and first occurrences;
- the transaction record;
- the per-kind total, summed from the first transaction to the last as the source's `reduce` does.

Inputs the app takes from its environment are parameters here:
- The current date becomes `now`, a month index (12 × year + month).
- A transaction's date text becomes a `Date`. It holds the month index the date parses to, or `None` when it does not parse. It also holds the opaque day label the dashboard chart groups by.
- Amounts and figures are `real`. Finite arithmetic is exact.

## Model

| member | source | states |
|---|---|---|
| `Transactions.Signed` | src/pages/Index.tsx:18-22 | A transaction moves a balance by its income contribution minus its expense contribution. |
| `CashFlow.Within` | src/hooks/useTransactionAnalytics.ts:32-39 | The window filter never grows the list, and every kept transaction has a parsed date inside the months. |
| `CashFlow.WithinMembers` | src/hooks/useTransactionAnalytics.ts:32-39 | A transaction is kept exactly when its date parses and falls in the window. Unparsable dates are dropped, not errors. |
| `CashFlow.WithinSkips` | src/hooks/useTransactionAnalytics.ts:32-39 | A transaction outside the window is invisible to the filter wherever it sits in the list. |
| `CashFlow.Bucket` | src/hooks/useTransactionAnalytics.ts:60-79 | A month's bucket carries that month and has net equal to income minus expense. |
| `CashFlow.Series` | src/hooks/useTransactionAnalytics.ts:53-80 | The series has exactly `months` buckets. Bucket k is for month start+k, oldest first. |
| `CashFlow.SeriesZeroFilled` | src/hooks/useTransactionAnalytics.ts:60-79 | A month of the window with nothing dated in it gets a bucket with zero income, expense and net. |
| `CashFlow.BuildSeries` | src/hooks/useTransactionAnalytics.ts:53-80 | The loop that computes month i back and puts it in front (`unshift`) builds exactly the chronological series. |
| `CashFlow.SeriesCons` | src/hooks/useTransactionAnalytics.ts:54-74 | One more loop round puts the previous month's bucket in front of the series built so far. |
| `CashFlow.SeriesTiles` | src/hooks/useTransactionAnalytics.ts:29-80 | The month buckets tile their range. Summed over the series, incomes (or expenses) equal the total over the whole range. |
| `CashFlow.WithinWithin` | src/hooks/useTransactionAnalytics.ts:60-72 | Filtering the window's transactions by a month inside it is the same as filtering the whole list by that month. |
| `CashFlow.SeriesSeesWholeMonth` | src/hooks/useTransactionAnalytics.ts:55-72 | Each bucket holds the income and expense of every transaction in the whole list dated in its month. |
| `CategoryBreakdown.AddTo` | src/hooks/useTransactionAnalytics.ts:86-91 | Adding to a category creates its key at the end only if it is new. It raises that key's amount alone, and raises the total by the amount. |
| `CategoryBreakdown.Tally` | src/hooks/useTransactionAnalytics.ts:83-91 | The grouping object has distinct keys, exactly the categories some expense is booked under. Each holds its category's sum, and together they hold the total expense. |
| `CategoryBreakdown.AmountOfOwnKey` | src/hooks/useTransactionAnalytics.ts:93-96 | With distinct keys, every entry carries the amount stored under its own key. |
| `CategoryBreakdown.Percentage` | src/hooks/useTransactionAnalytics.ts:97 | With a non-zero total, the percentage times the total gives back 100 times the amount. With a zero total it is 0. |
| `CategoryBreakdown.Shares` | src/hooks/useTransactionAnalytics.ts:93-98 | There is one entry per key of the grouping object, in key order. Each carries its key, its amount and that amount's percentage of the total. |
| `CategoryBreakdown.SharesKeepGrouping` | src/hooks/useTransactionAnalytics.ts:93-98 | The entry list keeps the object's key order and amounts. Its percentages sum to the share of the total. |
| `CategoryBreakdown.PercentageAdds` | src/hooks/useTransactionAnalytics.ts:97 | The percentage of a sum is the sum of the percentages, including the zero-total case. |
| `CategoryBreakdown.PercentageOfWhole` | src/hooks/useTransactionAnalytics.ts:97 | A non-zero total is 100 percent of itself. |
| `CategoryBreakdown.Insert` | src/hooks/useTransactionAnalytics.ts:99 | Inserting into a list sorted largest-first keeps it sorted and adds exactly that entry. |
| `CategoryBreakdown.InsertAmountSum` | src/hooks/useTransactionAnalytics.ts:99 | Inserting adds the entry's amount to the sum of amounts. |
| `CategoryBreakdown.InsertKeys` | src/hooks/useTransactionAnalytics.ts:99 | Inserting adds the entry's category to the multiset of categories. |
| `CategoryBreakdown.SortByAmount` | src/hooks/useTransactionAnalytics.ts:99 | The sort returns a permutation of its input ordered by amount, non-increasing. |
| `CategoryBreakdown.SortKeepsKeys` | src/hooks/useTransactionAnalytics.ts:99 | Sorting keeps the multiset of categories. |
| `CategoryBreakdown.SortKeepsSums` | src/hooks/useTransactionAnalytics.ts:99 | Sorting keeps the amount sum and the percentage sum. |
| `CategoryBreakdown.Breakdown` | src/hooks/useTransactionAnalytics.ts:93-99 | The breakdown is sorted by amount, non-increasing, and is a permutation of the grouping object's entries. |
| `CategoryBreakdown.BreakdownCategories` | src/hooks/useTransactionAnalytics.ts:83-98 | There is one entry per distinct in-window expense category and no other. |
| `CategoryBreakdown.BreakdownEntries` | src/hooks/useTransactionAnalytics.ts:83-98 | Each entry holds its category's expense sum and that sum's percentage of the total. |
| `CategoryBreakdown.BreakdownAmounts` | src/hooks/useTransactionAnalytics.ts:83-98 | The breakdown amounts add up to the total expense. |
| `CategoryBreakdown.BreakdownPercentages` | src/hooks/useTransactionAnalytics.ts:97 | Percentages sum to the total's share. That is 100 when the total is the non-zero expense total, and 0 when the total is 0. |
| `TransactionAnalytics.Analyze` | src/hooks/useTransactionAnalytics.ts:28-120 | See the notes below the table. |
| `TransactionAnalytics.AddingTransaction` | src/hooks/useTransactionAnalytics.ts:32-50 | An in-window transaction adds its amount to the total of its kind. Any other transaction leaves the whole result unchanged. |
| `TransactionAnalytics.OutsideWindowIgnored` | src/hooks/useTransactionAnalytics.ts:32-39 | A transaction outside the window, or with an unparsable date, can be removed from anywhere without changing the result. |
| `TransactionAnalytics.CashFlowTilesWindow` | src/hooks/useTransactionAnalytics.ts:29-80 | Bucket incomes sum to `totalIncome` and bucket expenses to `totalExpense`. |
| `TransactionAnalytics.BucketsSeeWholeMonth` | src/hooks/useTransactionAnalytics.ts:53-80 | Every bucket holds the totals of all transactions of the input dated in its month. |
| `TransactionAnalytics.BreakdownMatchesWindow` | src/hooks/useTransactionAnalytics.ts:83-99 | The breakdown has one entry per distinct in-window expense category, each holding that category's sum. The amounts add up to `totalExpense`. |
| `TransactionAnalytics.PercentagesClose` | src/hooks/useTransactionAnalytics.ts:93-98 | Each percentage is amount/totalExpense·100, or 0 when totalExpense is 0. The percentages sum to 100 when totalExpense is not 0. |
| `TransactionAnalytics.SavingsRatioMeaning` | src/hooks/useTransactionAnalytics.ts:119-120 | The savings ratio is 0 without income. Otherwise, times the income, it gives back the savings times 100. |
| `TransactionAnalytics.SavingsRatio` | src/hooks/useTransactionAnalytics.ts:120 | The savings as a guarded percentage of the income, the same one `CategoryBreakdown.Percentage` computes. Its contract is stated by `TransactionAnalytics.SavingsRatioMeaning`. |
| `AnalyticsExample.ExampleMonth` | src/hooks/useTransactionAnalytics.ts:42-99 | One worked month: income 1,000,000 plus expenses of 400,000 on Makanan and 100,000 on Utang. It gives net 500,000 and the breakdown Makanan 80 % then Utang 20 %. |
| `Figures.Set` | src/pages/Analysis.tsx:14-22 | Changing one input sets that figure and leaves the other eight unchanged. |
| `Figures.FormOrderComplete` | src/integrations/supabase/types.ts:12-27 | The form names all nine figures of a stored row, each once. |
| `JsNumber.QuotientInverse` | src/utils/financialCalculations.ts:31 | A quotient is finite exactly when the divisor is not 0, and then inverts the division. Only 0/0 is NaN. |
| `JsNumber.ComparisonsOfNonFinite` | src/utils/financialCalculations.ts:69-76 | NaN fails every threshold comparison, and an infinity passes exactly those that point its way. |
| `FinancialHealth.Calculate` | src/utils/financialCalculations.ts:29-78 | Every metric carries its fixed rule text. Its verdict is the threshold table applied to its own value: liquidity ≥ 3, current > 1, savings > 10, debt < 50, debt service < 30, solvency > 50, investment > 50. |
| `FinancialHealth.SevenMetrics` | src/utils/financialCalculations.ts:8-16 | The report has exactly seven metrics, each named once. |
| `FinancialHealth.RulesAreFixed` | src/utils/financialCalculations.ts:29-65 | The rule texts do not depend on the figures. |
| `FinancialHealth.CashRatiosInvert` | src/utils/financialCalculations.ts:30-39 | Liquidity times monthly expenses gives back the cash when expenses are not 0. The current ratio is always finite and inverts `cash / (shortTermDebt or 1)`. |
| `FinancialHealth.IncomeRatiosInvert` | src/utils/financialCalculations.ts:40-54 | Savings and debt service are percentages over the same divisor, total income. |
| `FinancialHealth.AssetRatiosInvert` | src/utils/financialCalculations.ts:45-64 | Debt, solvency and investment are percentages over total assets. |
| `FinancialHealth.ZeroDivisors` | src/utils/financialCalculations.ts:31-61 | Each unguarded ratio is non-finite exactly when its divisor is 0. The current ratio is always finite. |
| `FinancialHealth.CurrentRatioWithoutDebt` | src/utils/financialCalculations.ts:36 | With no short-term debt the current ratio equals the cash. |
| `FinancialHealth.SolvencyComplementsDebt` | src/utils/financialCalculations.ts:45-58 | With non-zero assets, solvency plus debt ratio is 100. |
| `FinancialHealth.DebtVerdictMatchesSolvency` | src/utils/financialCalculations.ts:73-75 | The debt verdict equals the solvency verdict for all figures, including zero assets. |
| `FinancialHealth.LiquidityVerdict` | src/utils/financialCalculations.ts:67-69 | Liquidity is healthy exactly when cash ≥ 3 × expenses (the comparison flips for negative expenses). With no expenses it is healthy iff there is positive cash. |
| `FinancialHealth.LiquidityHasNoUpperBound` | src/utils/financialCalculations.ts:30-69 | Liquidity 3 and liquidity 10 are both healthy despite the "≤ 6" rule text. Liquidity 2 is not. |
| `FinancialHealth.ZeroFiguresAreUnhealthy` | src/pages/Analysis.tsx:14-35 | On the page's all-zero initial figures no metric is healthy. The current ratio is 0. |
| `AnalysisPage.CountHealthy` | src/pages/Analysis.tsx:42 | The `filter(...).length` count is the number of positions whose metric is healthy, never more than the metrics counted. |
| `AnalysisPage.HealthyCount` | src/pages/Analysis.tsx:42 | The number of healthy metrics is at most seven. |
| `AnalysisPage.Score` | src/pages/Analysis.tsx:43 | The score times 7 is 100 times the healthy count, so it is the count as a percentage of seven. |
| `AnalysisPage.HealthPercentage` | src/pages/Analysis.tsx:42-43 | The page's health percentage always lies in [0, 100]. |
| `AnalysisPage.BandOf` | src/pages/Analysis.tsx:98-101 | Green exactly above 70, red exactly at or below 40, yellow in between. |
| `AnalysisPage.CountFull` | src/pages/Analysis.tsx:42 | The count equals the number of metrics exactly when all are healthy. |
| `AnalysisPage.CountEmpty` | src/pages/Analysis.tsx:42 | The count is 0 exactly when none is healthy. |
| `AnalysisPage.ScoreInRange` | src/pages/Analysis.tsx:42-43 | The health percentage always lies in [0, 100]. |
| `AnalysisPage.ScoreExtremes` | src/pages/Analysis.tsx:42-43 | The score is 100 iff every metric is healthy, and 0 iff none is. |
| `AnalysisPage.ScoreStrictlyMonotone` | src/pages/Analysis.tsx:43 | More healthy metrics always means a strictly higher score. |
| `AnalysisPage.BandByCount` | src/pages/Analysis.tsx:98-101 | Green iff at least 5 metrics are healthy, yellow iff 3 or 4, red iff at most 2. |
| `AnalysisPage.ResultsAfterSubmit` | src/pages/Analysis.tsx:23-40 | Results are shown exactly when the browser delivered some submit, that is, one pressed while all nine inputs held a non-zero figure. They start hidden and no edit hides them again. |
| `AnalysisPage.Run` | src/pages/Analysis.tsx:14-40 | The page after a sequence of edits and submit presses. Its contract is stated by `AnalysisPage.ResultsAfterSubmit`. |
| `AnalysisPage.Step` | src/components/analysis/FinancialHealthForm.tsx:99-187 | One edit sets one figure. A submit shows the results only when no input is 0, because each input renders `value \|\| ''` and is `required`. Its contract is stated by `AnalysisPage.SubmitKeepsFigures` and `Figures.Set`. |
| `AnalysisPage.SubmitKeepsFigures` | src/pages/Analysis.tsx:37-40 | A submit leaves the entered figures alone. It shows the results exactly when they were shown already or no input is 0. |
| `AnalysisPage.InitialSubmitRefused` | src/pages/Analysis.tsx:14-22 | The page starts with all nine figures 0, so a submit before any edit is refused and the page stays as it was. |
| `Recommendations.Recommend` | src/components/analysis/Recommendations.tsx:25-48 | The recommendation list is never empty. |
| `Recommendations.RecommendByFilter` | src/components/analysis/Recommendations.tsx:25-48 | The list is the advisories of the unhealthy metrics in report order, followed by the congratulation when all are healthy. |
| `Recommendations.AdviceIffUnhealthy` | src/components/analysis/Recommendations.tsx:25-45 | The advisory for a metric is listed iff that metric is unhealthy. |
| `Recommendations.CongratulationAlone` | src/components/analysis/Recommendations.tsx:46-48 | The congratulation is listed iff every metric is healthy, and then it is the only line. |
| `Recommendations.RecommendationCount` | src/components/analysis/Recommendations.tsx:25-48 | The list length is the unhealthy count when that is positive, and 1 otherwise. |
| `Recommendations.UnhealthyCount` | src/components/analysis/Recommendations.tsx:25-45 | Healthy plus unhealthy metrics account for every metric. |
| `TransactionHistory.IncludesMeansOccurs` | src/components/TransactionHistory.tsx:19-20 | The left-to-right `includes` search succeeds exactly when the needle occurs at some position. The empty search is found everywhere. |
| `TransactionHistory.Includes` | src/components/TransactionHistory.tsx:19-20 | `String.prototype.includes`. Its contract is stated by `TransactionHistory.IncludesMeansOccurs`. |
| `TransactionHistory.Keep` | src/components/TransactionHistory.tsx:17-21 | The filter callback: the type matches and the lowercased search occurs in the description or the category. Its contract is stated by `TransactionHistory.FilteredMembers`. |
| `TransactionHistory.Filtered` | src/components/TransactionHistory.tsx:17-22 | The filtered history is never longer than the input. |
| `TransactionHistory.KeptPositions` | src/components/TransactionHistory.tsx:17 | The shown transactions sit at strictly increasing positions of the input, and every position that passes the filter is among them. The result is the order-preserving subsequence of all passing positions, duplicates included. |
| `TransactionHistory.FilteredMembers` | src/components/TransactionHistory.tsx:17-21 | A transaction is shown iff its type matches the filter and the lowercased search occurs in its lowercased description or category. |
| `TransactionHistory.ShowAll` | src/components/TransactionHistory.tsx:18-20 | With "all" and an empty search the history is the whole list. |
| `TransactionHistory.OnlySelectedKind` | src/components/TransactionHistory.tsx:18 | With a kind selected, every shown transaction has that kind. |
| `TransactionHistory.LowerOfUpper` | src/components/TransactionHistory.tsx:19-20 | Lowercasing undoes uppercasing for ASCII text. |
| `TransactionHistory.SearchIgnoresCase` | src/components/TransactionHistory.tsx:19-20 | Searching in capitals shows the same transactions. |
| `TransactionHistory.KindsPartition` | src/components/TransactionHistory.tsx:18 | For a fixed search, the income view and the expense view together are the full view, as multisets. |
| `TransactionHistory.KindsPartitionLength` | src/components/TransactionHistory.tsx:18 | For a fixed search, the income and expense views' lengths add up to the full view's. |
| `FinancialChart.Find` | src/components/FinancialChart.tsx:13 | `find` returns the first bucket with the label, or reports that no bucket has it. |
| `FinancialChart.Record` | src/components/FinancialChart.tsx:13-27 | One fold step adds at most one bucket. |
| `FinancialChart.GroupByDay` | src/components/FinancialChart.tsx:11-30 | The chart has at most as many buckets as transactions. |
| `FinancialChart.FirstAppearancesOrdered` | src/components/FinancialChart.tsx:13-27 | Keeping first occurrences gives distinct labels in order of first occurrence. |
| `FinancialChart.GroupLabels` | src/components/FinancialChart.tsx:11-30 | The chart's labels are the input's day labels, each once, in order of first appearance. |
| `FinancialChart.GroupOrder` | src/components/FinancialChart.tsx:12-27 | Bucket labels are pairwise distinct and ordered by the first position of their label in the input. |
| `FinancialChart.GroupAmounts` | src/components/FinancialChart.tsx:15-26 | Each bucket's income and expense are the totals of that day's incomes and expenses. |
| `FinancialChart.RecordTotal` | src/components/FinancialChart.tsx:15-27 | One fold step adds the transaction's amount to the chart's total of its kind. |
| `FinancialChart.GroupTotals` | src/components/FinancialChart.tsx:11-30 | Income and expense summed over all buckets equal the input's totals. |
| `FinancialChart.EmptyChart` | src/components/FinancialChart.tsx:30 | No transactions give no buckets. |
| `Dashboard.AddTransaction` | src/pages/Index.tsx:16-23 | Adding puts the transaction in front of the unchanged old list, grows it by one, and moves the balance by the signed amount. |
| `Dashboard.AddKeepsConsistent` | src/pages/Index.tsx:16-23 | If the balance equals income minus expense over the list, it still does after an add. |
| `Dashboard.ReplayConsistent` | src/pages/Index.tsx:13-23 | From the initial state, after any adds, the list is the adds newest first and the balance is income minus expense over it. |
| `Dashboard.ChartAgreesWithBalance` | src/components/FinancialChart.tsx:11-30 | On a consistent dashboard, the chart's income minus expense equals the balance. |
| `InvestmentAnalysis.Recommend` | src/utils/investmentAnalysis.ts:11-79 | Every pair of risk preference and budget level gets a recommendation naming at least one product. |
| `InvestmentAnalysis.Products` | src/utils/investmentAnalysis.ts:15-76 | Every product list is non-empty. |
| `InvestmentAnalysis.KnownEntries` | src/utils/investmentAnalysis.ts:17-74 | conservative/low gives "Rendah" and "4-6% per tahun". aggressive/high gives "Sangat Tinggi". moderate/medium gives exactly ["Reksa Dana Campuran"]. |
| `InvestmentAnalysis.RiskLevelMonotone` | src/utils/investmentAnalysis.ts:15-76 | More risk appetite or a larger budget never yields a lower risk level. |
| `InvestmentAnalysis.RiskLevelExtremes` | src/utils/investmentAnalysis.ts:15-76 | Only conservative/low is "Rendah", and only aggressive/high is "Sangat Tinggi". |
| `PasswordForm.Validate` | src/components/profile/PasswordForm.tsx:13-20 | At most four issues are reported. |
| `PasswordForm.ReportedIffFails` | src/components/profile/PasswordForm.tsx:13-20 | Each check is reported iff it fails. The length checks do not stop the confirmation check. |
| `PasswordForm.AcceptedIff` | src/components/profile/PasswordForm.tsx:13-20 | The form is accepted iff all three entries have at least 6 characters and the new password equals its confirmation. |
| `PasswordForm.MismatchOnConfirmation` | src/components/profile/PasswordForm.tsx:17-20 | A mismatch is reported under `confirmPassword` with "Kata sandi tidak cocok". |
| `PasswordForm.ReusingCurrentAccepted` | src/components/profile/PasswordForm.tsx:14-16 | A new password equal to the current one is accepted. |
| `PasswordForm.FiveCharactersRefused` | src/components/profile/PasswordForm.tsx:15-16 | A matching new/confirm pair of length 5 is refused. |
| `PasswordForm.ResetFails` | src/components/profile/PasswordForm.tsx:51-55 | The reset form fails exactly the three length checks. |
| `FinancialData.FieldIssues` | src/pages/FinancialData.tsx:24-52 | At most one issue per field, each with "Nilai tidak boleh negatif". |
| `FinancialData.Validate` | src/pages/FinancialData.tsx:24-52 | `formSchema`: at most nine issues, each "Nilai tidak boleh negatif" under a field whose figure is negative. The converse is `FinancialData.AcceptedIffNonnegative`. |
| `FinancialData.FieldIssuesMembers` | src/pages/FinancialData.tsx:24-52 | A field gets an issue iff it is checked and negative. |
| `FinancialData.IssueIffNegative` | src/pages/FinancialData.tsx:24-52 | A figure is reported iff it is negative. |
| `FinancialData.AcceptedIffNonnegative` | src/pages/FinancialData.tsx:24-52 | The form is accepted iff all nine figures are ≥ 0. |
| `FinancialData.DefaultAccepted` | src/pages/FinancialData.tsx:63-73 | The all-zero default record is accepted. |
| `FinancialData.NegativeFieldRefused` | src/pages/FinancialData.tsx:25-51 | One negative figure is refused with "Nilai tidak boleh negatif", whatever the others hold. |
| `FinancialData.LoadCopiesEveryField` | src/pages/FinancialData.tsx:77-91 | Loading copies each stored figure into its own form field unchanged. |
| `FinancialData.LoadIntoForm` | src/pages/FinancialData.tsx:77-91 | `form.reset` with the stored row: each form field gets its own stored column. |
| `FinancialData.SaveThenLoad` | src/hooks/useFinancialData.ts:59-73 | Saving form values into a row and loading them back gives the same values, with the row's identity kept. |

`TransactionAnalytics.Analyze` takes `months` as a parameter; the hook's default is 6 (`useTransactionAnalytics(transactions, months = 6)`). Its contract states the following:
- net equals income minus expense;
- there are exactly `months` buckets, in order from the window's first month to the current month;
- each bucket's net is its income minus its expense;
- the savings are the last bucket's net, and the savings ratio is taken over that bucket's income;
- the breakdown is sorted by amount, non-increasing.

## Left out

- Persistence, authentication and toasts. The Supabase reads and writes, the session provider and the sign-in page are I/O over a remote store.
- `FinancialData.SaveThenLoad` assumes the store writes the nine figures as given and echoes the written row back (`.update(values).eq('id', id).select('*').single()`). The round trip is proved for that row. Whether the remote store behaves so, and the `updated_at` it sets, are not modelled.
- The current date and date parsing. `new Date()` is the parameter `now`. `parseISO` becomes the month index already stored in `Date.month`, so time zones and times of day are not modelled.
- Month and day labels. The `toLocaleString('id-ID')` month names and the `toLocaleDateString` day labels are display formatting. The series carries month indices, and the chart treats its labels as opaque keys.
- `TransactionAnalytics.Analyze` requires `months >= 1`. With `months <= 0` the source builds no buckets, and its window filter depends on how the date library orders a reversed interval.
- Floating point. Finite arithmetic is exact over `real`. Rounding, signed zero and overflow to infinity are not modelled, so identities such as solvency + debt = 100 hold exactly here but only approximately in binary floating point. Division by zero is modelled (`JsNumber`); NaN arising in any other way is not.
- `CategoryBreakdown.SortByAmount` proves that the result is a permutation of its input, sorted by amount. Stability is not proved, though the insertion sort keeps equal amounts in input order as the stable built-in sort does.
- Object key order and prototype names. `Object.entries` lists integer-like keys (a category named "2024") before the others, and a category named like an `Object.prototype` member would see the inherited value. The model keeps insertion order for every key and treats every category as a plain key.
- Unicode. `toLowerCase` is modelled for ASCII letters only. String lengths are counted in characters, whereas the password schema counts UTF-16 code units.
- Coercion in the balance-sheet schema. `z.coerce.number()` turns text into a number. The model starts from numbers, so the "not a number" error is not modelled.
- The analysis form's text handling. Each edit becomes `Number(e.target.value)`, and the browser lets a number input hold only numeric text. An edit is therefore a real, and clearing an input is an edit to 0. Constraint validation is modelled only as the `required` rule that `AnalysisPage.Submittable` states.
- Memoisation (`useMemo`) and rendering. Only the values the components compute are modelled.
- The transaction modal's ids from `Date.now()`, the profile form, and the theme, currency, chart and table components. They contain no derivation beyond display.

## Where the code disagrees with its own rule texts

The model follows the code in each case.
- **Division by zero.** `calculateFinancialHealth` guards only the current ratio (`shortTermDebt || 1`). The other ratios divide by zero, which gives Infinity or NaN. On the analysis page's all-zero initial figures every verdict is therefore unhealthy (`FinancialHealth.ZeroFiguresAreUnhealthy`).
- **The liquidity range.** The rule text says "≥ 3 dan ≤ 6", and so does the financial-data page's help text (src/pages/FinancialData.tsx:305). The verdict is only `≥ 3` (`FinancialHealth.LiquidityHasNoUpperBound`).
- **The savings-ratio threshold.** The verdict uses `> 10`, while the analytics chart colours savings from 20 upward (src/components/analysis/TransactionAnalyticsChart.tsx:109). The model keeps the verdict's 10.
