# Ratio calculator of the fundamentals dashboard

The dashboard fetches, for each ticker in a fixed list, a company profile and
three statements (balance sheet, income statement, cash flow), derives ratio
groups from them and shows one table per group. This project models the two
ratio groups that are computed by self-contained functions in `app.py`:

- **WACC / ROIC / verdict** (`calculate_wacc_roic_and_conclusion`): reads total
  equity, total liabilities, cash and EBIT (last value of each row, 0 when the
  row is absent). If equity plus liabilities is zero it returns the degenerate
  `(None, None, "Total value is zero, cannot calculate WACC and ROIC")`.
  Otherwise it prices equity by CAPM (risk-free 0.03, market 0.08, beta from the
  profile, default 1), weights it against an after-tax cost of debt (0.05 at a
  0.21 tax rate), computes NOPAT (0 unless EBIT is positive), invested capital
  and ROIC (0 unless invested capital is positive), and says whether the company
  creates value, destroys it or sits at the threshold.
- **Debt solvency** (`calculate_debt_solvency_ratios`): reads eight line items
  the same way and produces six ratios, each `'N/A'` exactly when its own
  denominator is zero.
- The loops that apply each calculator to every ticker and collect one row per
  ticker.

Modules, in dependency order:

- `Outcomes` (`outcomes.dfy`): `Result` (a value or a `Fault`) and `Option`.
- `RealFacts` (`realfacts.dfy`): two ordering facts about real multiplication.
- `Statements` (`statements.dfy`): statements as `map<string, seq<real>>`, the
  profile as `map<string, real>`, the snapshot of one ticker, the
  "last element or 0" lookup and `info.get`.
- `Valuation` (`valuation.dfy`): the WACC / ROIC calculation.
- `Solvency` (`solvency.dfy`): the six solvency ratios, `Ratio = NA | Val(real)`.
- `Dashboard` (`dashboard.dfy`): the table rows and the per-ticker loops.

Python floats are modelled as Dafny `real`, so every guard and every comparison
is exact. Each calculation is split into a read step (`ReadWaccInputs`,
`ReadSolvencyInputs`) that looks the fields up in the source's order, and an
arithmetic step (`Evaluate`, `EvaluateSolvency`) over the values read. Dafny
checks every division for a non-zero divisor, so it is proved that the
degenerate case and the `'N/A'` cases perform no division by zero.

A row that is present but has no elements makes `row[-1]` raise `IndexError` in
the source. The model does not forbid this input. The lookup returns
`Err(EmptyRow(item))`, the calculators return the fault of the first such row
they read, and a table stops at the first company whose calculation faults,
because the uncaught exception ends the script.

## Model

| member | source | states |
|---|---|---|
| `Statements.LastOrZero` | app.py:75-78 | reading a line item gives the last element of its row when the row is present and non-empty, 0 when the row is absent, and an `EmptyRow` fault for that item exactly when the row is present but empty, which cannot happen in a statement whose rows are all non-empty |
| `Statements.AppendedValueIsRead` | app.py:75-78 | an algebraic partner of the lookup, not something the source does: after a value is appended to a row it is the value read, and every other item reads as before |
| `Statements.RemovedRowReadsZero` | app.py:75-78 | an algebraic partner of the lookup, not something the source does: once a row is removed from a statement, that item reads as 0 |
| `Statements.FirstEmpty` | app.py:150-157 | the search over the items a calculation reads, in order, finds nothing iff every row is absent or non-empty, and otherwise finds an item whose row is empty and whose predecessors all read without fault, so it names the row whose `[-1]` raises first |
| `Statements.GetOr` | app.py:89 | a profile lookup yields the stored value when the key is present and the default otherwise |
| `Valuation.CostOfEquity` | app.py:98 | CAPM gives the market return 0.08 at beta 1 and the risk-free rate 0.03 at beta 0 |
| `Valuation.CostOfEquityMonotone` | app.py:98 | a higher beta never gives a lower cost of equity |
| `Valuation.MissingBetaCostsMarketReturn` | app.py:87-98 | when the profile has no beta, the cost of equity is exactly 0.08 |
| `Valuation.Wacc` | app.py:101 | WACC times equity-plus-liabilities equals equity times the cost of equity plus liabilities times the after-tax cost of debt |
| `Valuation.WaccIsWeightedAverage` | app.py:101 | with non-negative equity and liabilities, WACC lies between the cost of equity and the after-tax cost of debt |
| `Valuation.AllEquityWaccIsCostOfEquity` | app.py:101 | with zero liabilities and non-zero equity, WACC is the cost of equity |
| `Valuation.AllDebtWaccIsAfterTaxCostOfDebt` | app.py:101 | with zero equity and non-zero liabilities, WACC is the after-tax cost of debt, 0.0395 |
| `Valuation.Nopat` | app.py:104 | NOPAT is never negative; for positive EBIT it is EBIT less 21 % tax and strictly below EBIT, otherwise 0 |
| `Valuation.Roic` | app.py:105-106 | applied to `InvestedCapital` (equity plus liabilities less cash): for positive invested capital, ROIC times capital gives back NOPAT; otherwise ROIC is 0; it is non-negative whenever NOPAT is |
| `Valuation.Classify` | app.py:109-114 | creating value iff ROIC > WACC, destroying value iff ROIC < WACC, at the threshold iff they are equal |
| `Valuation.Evaluate` | app.py:82-116 | degenerate with the zero-value reason iff equity plus liabilities is 0; otherwise WACC satisfies the weighting identity, ROIC is non-negative, ROIC times positive invested capital is NOPAT, ROIC is 0 without positive capital or positive EBIT, and the verdict matches the ROIC/WACC comparison in all three directions |
| `Valuation.ReadWaccInputs` | app.py:75-89 | the read succeeds iff none of equity, liabilities, cash and EBIT is an empty row; a failed read reports the first empty row in the source's reading order; a successful one yields the last value of each row (0 when absent) and the profile's beta (default 1) |
| `Valuation.WaccRoic` | app.py:73-116 | on a snapshot: faults iff one of the four rows read is empty, naming the first; otherwise degenerate with the zero-value reason iff the last equity plus last liabilities is 0, and when valued, WACC satisfies the weighting identity over those values and the profile beta, ROIC times positive invested capital is the NOPAT of the last EBIT, ROIC is 0 without positive capital or EBIT, ROIC is non-negative, and the verdict matches the ROIC/WACC comparison in all three directions |
| `Valuation.NoProfitMeansZeroRoic` | app.py:104-106 | with EBIT at most 0, ROIC is 0 whatever equity, liabilities and cash are |
| `Valuation.NoProfitNeverCreatesValue` | app.py:98-114 | with EBIT at most 0 and non-negative equity, liabilities and beta, the verdict is never "creating value" |
| `Valuation.NegativeBetaNoProfitCreatesValue` | app.py:98-114 | the sign conditions above are needed: equity 100, no liabilities, cash or EBIT, and beta -1 give a cost of equity and WACC of -0.02, ROIC 0 and "creating value" |
| `Valuation.WorkedExample` | app.py:98-116 | equity 500, liabilities 500, cash 100, EBIT 200, beta 1.2 give cost of equity 0.09, WACC 0.06475, ROIC 158/900 and "creating value" |
| `Valuation.WorkedExampleFromSnapshot` | app.py:73-84 | the same example read from one-period statements, with a market capitalisation that does not affect the result |
| `Solvency.Divide` | app.py:160-165 | a ratio is `NA` iff its denominator is 0, and otherwise the value that times the denominator gives the numerator |
| `Solvency.EvaluateSolvency` | app.py:160-176 | each of the six ratios is `NA` iff its own denominator is 0, and otherwise the exact quotient of its own numerator and denominator |
| `Solvency.ReadSolvencyInputs` | app.py:150-157 | the read succeeds iff none of the eight rows is empty; a failed read reports the first empty row in the source's reading order; a successful one yields the last value of each row (0 when absent) |
| `Solvency.DebtSolvency` | app.py:148-176 | on a snapshot: faults iff one of the eight rows read is empty, naming the first; otherwise each of the six ratios is `NA` iff its denominator, taken from the last row values, is 0, and otherwise times that denominator gives its numerator |
| `Solvency.CurrentAndQuickMissingTogether` | app.py:160-161 | the current and quick ratios are `NA` together |
| `Solvency.CurrentLiabilitiesOnlyAffectLiquidity` | app.py:160-165 | changing current liabilities, to zero or anything else, leaves the other four ratios unchanged |
| `Solvency.InterestExpenseOnlyAffectsCoverage` | app.py:164 | changing the interest expense changes no ratio but interest coverage |
| `Solvency.TotalAssetsOnlyAffectDebtToAssets` | app.py:163 | changing total assets changes no ratio but debt-to-assets |
| `Solvency.QuickRatioAtMostCurrentRatio` | app.py:160-161 | with positive current liabilities and non-negative inventory, the quick ratio is at most the current ratio |
| `Solvency.DebtToCapitalIsFraction` | app.py:165 | with non-negative liabilities and equity, not both zero, debt to total capital lies in [0, 1] |
| `Solvency.ZeroCurrentLiabilitiesExample` | app.py:160-165 | with zero current liabilities both liquidity ratios are `NA` while the other four are still computed |
| `Dashboard.WaccRecord` | app.py:129-137 | a degenerate result shows no WACC, no ROIC and the reason; a valued one shows both numbers and the verdict's conclusion text, given by `Valuation.Conclusion` with the exact Spanish wording of app.py:109-114 |
| `Dashboard.WaccRowOf` | app.py:129-137 | the stored row faults iff the snapshot has an empty row among those read; otherwise it carries the company's ticker, shows no WACC and no ROIC exactly when equity plus liabilities is 0 (with the zero-value reason as conclusion), and otherwise a non-negative ROIC and the conclusion text that the shown ROIC and WACC call for; the shown numbers are exactly the WACC and ROIC the calculation gives for the snapshot, and a row without numbers comes from its degenerate result |
| `Dashboard.SolvencyRowOf` | app.py:189-192 | the stored row faults iff the snapshot has an empty row among those read; otherwise it carries the company's ticker and the ratios the calculation gives for it |
| `Dashboard.Tabulate` | app.py:121-139 | a generic per-ticker loop: it succeeds iff every company's row does, then has one row per company in order, each computed from that company alone; otherwise it reports the fault of the first company that faults |
| `Dashboard.WaccTable` | app.py:121-137 | the WACC table has one row per company, row i carrying the i-th ticker and that company's row; it faults iff some company has an empty row among those read, with the fault of the first such company |
| `Dashboard.SolvencyTable` | app.py:181-192 | the debt-solvency table has one row per company, row i carrying the i-th ticker and that company's ratios; it faults iff some company has an empty row among those read, with the fault of the first such company |
| `Dashboard.ConclusionsDistinct` | app.py:109-114 | the three texts of `Valuation.Conclusion` differ from each other and from the zero-value reason |
| `Dashboard.DegenerateIffNoDebtToCapital` | app.py:82-84 | when no statement row is empty both calculations succeed, and for the same snapshot the WACC result is degenerate exactly when debt to total capital is `NA` |
| `Dashboard.UnreadInputsIgnored` | app.py:73-79 | neither calculation depends on the cash-flow statement, and the solvency ratios do not depend on the profile |

## Left out

- `get_financial_data` and the general ratio table (app.py:13-70): it divides whole pandas Series element-wise with no zero guard, and its profile fields are plain `info.get` pass-throughs.
- Fetching through yfinance, the streamlit output and the pandas DataFrame assembly: these are external libraries. The companies reach `WaccTable` and `SolvencyTable` already fetched, as a sequence of ticker and snapshot.
- The half-second pauses between fetches and the global lists the loops append to: `Tabulate` returns the sequence of rows instead.
- The source fetches every ticker again for each table (app.py:122-126, app.py:182-186). The model gives both tables the same `Company` snapshots, so `DegenerateIffNoDebtToCapital`, which compares the two tables for one snapshot, assumes the provider returned the same data both times.
- The script runs the WACC loop before the solvency loop, and a fault in the WACC loop ends the script before the solvency loop starts. The two tables are modelled as independent methods; that ordering between them is not modelled.
- The unused `market_cap` read (app.py:79) and the unused `cashflow` and `info` parameters of the solvency function: they cannot affect any result.
- Floating point: values are exact reals, so there is no rounding, NaN or infinity. The "threshold" verdict is exact only in this abstraction. A NaN in equity, liabilities or beta makes the source's WACC NaN, both comparisons fail and it prints the threshold text; a NaN in cash or EBIT fails the `> 0` guard, so ROIC silently becomes 0 and an ordinary verdict follows.
- Which period `row[-1]` selects depends on the column order the data provider uses; the model takes the last element of the row, as the code does. The positional fallback of pandas `Series[-1]` on a date index is taken as given.
- Profile values are numbers. A profile holding `beta` with a non-numeric value such as `None` would make the source raise `TypeError`; that input is not modelled.
- Duplicate line-item labels in a statement are not modelled: a `map` has one row per label.
