/** Debt and liquidity ratios for one company.

    Each ratio is a plain quotient of two line items, reported as "not
    available" exactly when its own denominator is zero.
 */
module Solvency {
  import opened Outcomes
  import opened Statements
  import opened RealFacts

  /** A ratio cell: the string `'N/A'` or a number. */
  datatype Ratio = NA | Val(value: real)

  /** `num / den if den != 0 else 'N/A'`. */
  function Divide(num: real, den: real): (r: Ratio)
    ensures r.NA? <==> den == 0.0
    ensures r.Val? ==> r.value * den == num
  {
    if den != 0.0 then Val(num / den) else NA
  }

  /** The eight line items the ratios are built from, already looked up. */
  datatype SolvencyInputs = SolvencyInputs(
    currentAssets: real,
    currentLiabilities: real,
    inventory: real,
    debt: real,
    totalAssets: real,
    equity: real,
    ebit: real,
    interestExpense: real)

  datatype SolvencyRatios = SolvencyRatios(
    currentRatio: Ratio,
    quickRatio: Ratio,
    debtToEquity: Ratio,
    debtToAssets: Ratio,
    interestCoverage: Ratio,
    debtToCapital: Ratio)

  /** The six ratios once the inputs are read. */
  function EvaluateSolvency(x: SolvencyInputs): (r: SolvencyRatios)
    ensures r.currentRatio.NA? <==> x.currentLiabilities == 0.0
    ensures r.currentRatio.Val? ==> r.currentRatio.value * x.currentLiabilities == x.currentAssets
    ensures r.quickRatio.NA? <==> x.currentLiabilities == 0.0
    ensures r.quickRatio.Val? ==> r.quickRatio.value * x.currentLiabilities == x.currentAssets - x.inventory
    ensures r.debtToEquity.NA? <==> x.equity == 0.0
    ensures r.debtToEquity.Val? ==> r.debtToEquity.value * x.equity == x.debt
    ensures r.debtToAssets.NA? <==> x.totalAssets == 0.0
    ensures r.debtToAssets.Val? ==> r.debtToAssets.value * x.totalAssets == x.debt
    ensures r.interestCoverage.NA? <==> x.interestExpense == 0.0
    ensures r.interestCoverage.Val? ==> r.interestCoverage.value * x.interestExpense == x.ebit
    ensures r.debtToCapital.NA? <==> x.debt + x.equity == 0.0
    ensures r.debtToCapital.Val? ==> r.debtToCapital.value * (x.debt + x.equity) == x.debt
  {
    SolvencyRatios(
      Divide(x.currentAssets, x.currentLiabilities),
      Divide(x.currentAssets - x.inventory, x.currentLiabilities),
      Divide(x.debt, x.equity),
      Divide(x.debt, x.totalAssets),
      Divide(x.ebit, x.interestExpense),
      Divide(x.debt, x.debt + x.equity))
  }

  /** The balance-sheet rows the calculation reads, in reading order. */
  const SolvencyBalanceItems: seq<string> := [
    "Total Current Assets", "Total Current Liabilities", "Inventory",
    "Total Liabilities", "Total Assets", "Total Equity"]

  /** The income-statement rows it reads after them. */
  const SolvencyIncomeItems: seq<string> := ["EBIT", "Interest Expense"]

  /** Reads the eight line items in the order the calculation does. */
  function ReadSolvencyInputs(s: Snapshot): (r: Result<SolvencyInputs>)
    ensures r.Ok? <==> FirstEmptyRow(s, SolvencyBalanceItems, SolvencyIncomeItems).None?
    ensures r.Err? ==> FirstEmptyRow(s, SolvencyBalanceItems, SolvencyIncomeItems) == Some(r.fault.item)
    ensures r.Ok? ==> r.value == SolvencyInputs(
      LastValue(s.balanceSheet, "Total Current Assets"),
      LastValue(s.balanceSheet, "Total Current Liabilities"),
      LastValue(s.balanceSheet, "Inventory"),
      LastValue(s.balanceSheet, "Total Liabilities"),
      LastValue(s.balanceSheet, "Total Assets"),
      LastValue(s.balanceSheet, "Total Equity"),
      LastValue(s.financials, "EBIT"),
      LastValue(s.financials, "Interest Expense"))
  {
    var bs := s.balanceSheet;
    FirstEmptyCons(bs, "Total Current Assets", SolvencyBalanceItems[1..]);
    FirstEmptyCons(bs, "Total Current Liabilities", SolvencyBalanceItems[2..]);
    FirstEmptyCons(bs, "Inventory", SolvencyBalanceItems[3..]);
    FirstEmptyCons(bs, "Total Liabilities", SolvencyBalanceItems[4..]);
    FirstEmptyCons(bs, "Total Assets", SolvencyBalanceItems[5..]);
    FirstEmptyCons(bs, "Total Equity", []);
    FirstEmptyCons(s.financials, "EBIT", ["Interest Expense"]);
    FirstEmptyCons(s.financials, "Interest Expense", []);
    var currentAssets :- LastOrZero(s.balanceSheet, "Total Current Assets");
    var currentLiabilities :- LastOrZero(s.balanceSheet, "Total Current Liabilities");
    var inventory :- LastOrZero(s.balanceSheet, "Inventory");
    var debt :- LastOrZero(s.balanceSheet, "Total Liabilities");
    var totalAssets :- LastOrZero(s.balanceSheet, "Total Assets");
    var equity :- LastOrZero(s.balanceSheet, "Total Equity");
    var ebit :- LastOrZero(s.financials, "EBIT");
    var interestExpense :- LastOrZero(s.financials, "Interest Expense");
    Ok(SolvencyInputs(currentAssets, currentLiabilities, inventory, debt, totalAssets, equity, ebit, interestExpense))
  }

  /** `calculate_debt_solvency_ratios` on one snapshot, stated in terms of the
      last values of the rows it reads. */
  function DebtSolvency(s: Snapshot): (r: Result<SolvencyRatios>)
    ensures r.Ok? <==> FirstEmptyRow(s, SolvencyBalanceItems, SolvencyIncomeItems).None?
    ensures r.Err? ==> FirstEmptyRow(s, SolvencyBalanceItems, SolvencyIncomeItems) == Some(r.fault.item)
    ensures var ca, cl, inv := LastValue(s.balanceSheet, "Total Current Assets"),
      LastValue(s.balanceSheet, "Total Current Liabilities"), LastValue(s.balanceSheet, "Inventory");
      r.Ok? ==>
        && (r.value.currentRatio.NA? <==> cl == 0.0)
        && (r.value.currentRatio.Val? ==> r.value.currentRatio.value * cl == ca)
        && (r.value.quickRatio.NA? <==> cl == 0.0)
        && (r.value.quickRatio.Val? ==> r.value.quickRatio.value * cl == ca - inv)
    ensures var debt, equity := LastValue(s.balanceSheet, "Total Liabilities"), LastValue(s.balanceSheet, "Total Equity");
      var assets := LastValue(s.balanceSheet, "Total Assets");
      r.Ok? ==>
        && (r.value.debtToEquity.NA? <==> equity == 0.0)
        && (r.value.debtToEquity.Val? ==> r.value.debtToEquity.value * equity == debt)
        && (r.value.debtToAssets.NA? <==> assets == 0.0)
        && (r.value.debtToAssets.Val? ==> r.value.debtToAssets.value * assets == debt)
        && (r.value.debtToCapital.NA? <==> debt + equity == 0.0)
        && (r.value.debtToCapital.Val? ==> r.value.debtToCapital.value * (debt + equity) == debt)
    ensures var ebit, interest := LastValue(s.financials, "EBIT"), LastValue(s.financials, "Interest Expense");
      r.Ok? ==>
        && (r.value.interestCoverage.NA? <==> interest == 0.0)
        && (r.value.interestCoverage.Val? ==> r.value.interestCoverage.value * interest == ebit)
  {
    var x :- ReadSolvencyInputs(s);
    Ok(EvaluateSolvency(x))
  }

  /** The current and quick ratios share a denominator, so they are missing
      together. */
  lemma CurrentAndQuickMissingTogether(x: SolvencyInputs)
    ensures EvaluateSolvency(x).currentRatio.NA? <==> EvaluateSolvency(x).quickRatio.NA?
  {
  }

  /** Changing current liabilities, even to zero, touches only the current and
      quick ratios. */
  lemma CurrentLiabilitiesOnlyAffectLiquidity(x: SolvencyInputs, cl: real)
    ensures var r, r' := EvaluateSolvency(x), EvaluateSolvency(x.(currentLiabilities := cl));
      && r'.debtToEquity == r.debtToEquity
      && r'.debtToAssets == r.debtToAssets
      && r'.interestCoverage == r.interestCoverage
      && r'.debtToCapital == r.debtToCapital
  {
  }

  /** Changing the interest expense, even to zero, touches only the interest
      coverage ratio. */
  lemma InterestExpenseOnlyAffectsCoverage(x: SolvencyInputs, ie: real)
    ensures var r, r' := EvaluateSolvency(x), EvaluateSolvency(x.(interestExpense := ie));
      r' == r.(interestCoverage := r'.interestCoverage)
  {
  }

  /** Changing total assets, even to zero, touches only the debt-to-assets
      ratio. */
  lemma TotalAssetsOnlyAffectDebtToAssets(x: SolvencyInputs, ta: real)
    ensures var r, r' := EvaluateSolvency(x), EvaluateSolvency(x.(totalAssets := ta));
      r' == r.(debtToAssets := r'.debtToAssets)
  {
  }

  /** With positive current liabilities and non-negative inventory, the quick
      ratio never exceeds the current ratio. */
  lemma QuickRatioAtMostCurrentRatio(x: SolvencyInputs)
    requires x.currentLiabilities > 0.0 && x.inventory >= 0.0
    ensures EvaluateSolvency(x).quickRatio.value <= EvaluateSolvency(x).currentRatio.value
  {
    var r := EvaluateSolvency(x);
    var q, c, cl := r.quickRatio.value, r.currentRatio.value, x.currentLiabilities;
    assert q * cl <= c * cl;
    DivideOutPositive(q, c, cl);
  }

  /** With non-negative liabilities and equity, debt is a fraction of capital. */
  lemma DebtToCapitalIsFraction(x: SolvencyInputs)
    requires x.debt >= 0.0 && x.equity >= 0.0 && x.debt + x.equity > 0.0
    ensures 0.0 <= EvaluateSolvency(x).debtToCapital.value <= 1.0
  {
    var f, v := EvaluateSolvency(x).debtToCapital.value, x.debt + x.equity;
    assert f * v == x.debt;
    assert 0.0 * v <= f * v <= 1.0 * v;
    DivideOutPositive(0.0, f, v);
    DivideOutPositive(f, 1.0, v);
  }

  /** Zero current liabilities: both liquidity ratios are missing and the
      other four are still computed. */
  lemma ZeroCurrentLiabilitiesExample()
    ensures EvaluateSolvency(SolvencyInputs(300.0, 0.0, 50.0, 400.0, 1000.0, 600.0, 120.0, 30.0))
      == SolvencyRatios(NA, NA, Val(2.0 / 3.0), Val(0.4), Val(4.0), Val(0.4))
  {
  }
}
