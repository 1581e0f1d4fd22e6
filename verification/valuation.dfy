/** WACC, ROIC and the value-creation verdict for one company.

    The cost of equity follows CAPM with fixed macro assumptions, the WACC
    weights it against an after-tax cost of debt by book equity and total
    liabilities, and ROIC is NOPAT over invested capital.  A company whose
    equity and liabilities sum to zero gets a degenerate result instead.
 */
module Valuation {
  import opened Outcomes
  import opened Statements
  import opened RealFacts

  const RiskFreeRate: real := 0.03
  const MarketReturn: real := 0.08
  /** Beta assumed when the profile does not report one. */
  const DefaultBeta: real := 1.0
  const CostOfDebt: real := 0.05
  const TaxRate: real := 0.21
  const ZeroValueReason: string := "Total value is zero, cannot calculate WACC and ROIC"

  /** Whether the company's return on capital beats its cost of capital. */
  datatype Verdict = CreatingValue | DestroyingValue | AtThreshold

  /** The conclusion text the dashboard shows for each verdict. */
  function Conclusion(v: Verdict): string {
    match v
    case CreatingValue => "La compañía está creando valor."
    case DestroyingValue => "La compañía está destruyendo valor."
    case AtThreshold => "La compañía está en el umbral de crear o destruir valor."
  }

  /** The fields the calculation reads, already looked up. */
  datatype WaccInputs = WaccInputs(equity: real, debt: real, cash: real, ebit: real, beta: real)

  /** `(None, None, reason)` or `(wacc, roic, conclusion)`. */
  datatype WaccResult =
    | Degenerate(reason: string)
    | Valued(wacc: real, roic: real, verdict: Verdict)

  /** CAPM: the risk-free rate plus beta times the market risk premium. */
  function CostOfEquity(beta: real): (r: real)
    ensures beta == DefaultBeta ==> r == MarketReturn
    ensures beta == 0.0 ==> r == RiskFreeRate
  {
    RiskFreeRate + beta * (MarketReturn - RiskFreeRate)
  }

  /** The cost of debt once interest is deducted from taxable income. */
  const AfterTaxCostOfDebt: real := CostOfDebt * (1.0 - TaxRate)

  /** Net operating profit after tax; a loss is not taxed back, it counts as 0. */
  function Nopat(ebit: real): (r: real)
    ensures r >= 0.0
    ensures ebit > 0.0 ==> r == ebit * (1.0 - TaxRate) && r < ebit
    ensures ebit <= 0.0 ==> r == 0.0
  {
    if ebit > 0.0 then ebit * (1.0 - TaxRate) else 0.0
  }

  function InvestedCapital(x: WaccInputs): real {
    x.equity + x.debt - x.cash
  }

  /** NOPAT per unit of invested capital, or 0 when there is no positive capital. */
  function Roic(nopat: real, capital: real): (r: real)
    ensures capital > 0.0 ==> r * capital == nopat
    ensures capital <= 0.0 ==> r == 0.0
    ensures nopat >= 0.0 ==> r >= 0.0
  {
    if capital > 0.0 then nopat / capital else 0.0
  }

  function Classify(roic: real, wacc: real): (v: Verdict)
    ensures v == CreatingValue <==> roic > wacc
    ensures v == DestroyingValue <==> roic < wacc
    ensures v == AtThreshold <==> roic == wacc
  {
    if roic > wacc then CreatingValue
    else if roic < wacc then DestroyingValue
    else AtThreshold
  }

  /** Weighted average cost of capital, weights taken from book equity and
      total liabilities. */
  function Wacc(x: WaccInputs): (r: real)
    requires x.equity + x.debt != 0.0
    ensures r * (x.equity + x.debt) == x.equity * CostOfEquity(x.beta) + x.debt * AfterTaxCostOfDebt
  {
    var total := x.equity + x.debt;
    var r := x.equity / total * CostOfEquity(x.beta) + x.debt / total * CostOfDebt * (1.0 - TaxRate);
    assert x.equity / total * total == x.equity;
    assert x.debt / total * total == x.debt;
    r
  }

  /** The calculation once the inputs are read. */
  function Evaluate(x: WaccInputs): (r: WaccResult)
    ensures r.Degenerate? <==> x.equity + x.debt == 0.0
    ensures r.Degenerate? ==> r.reason == ZeroValueReason
    ensures r.Valued? ==> r.wacc * (x.equity + x.debt) == x.equity * CostOfEquity(x.beta) + x.debt * AfterTaxCostOfDebt
    ensures r.Valued? ==> r.roic >= 0.0
    ensures r.Valued? && InvestedCapital(x) > 0.0 ==> r.roic * InvestedCapital(x) == Nopat(x.ebit)
    ensures r.Valued? && (InvestedCapital(x) <= 0.0 || x.ebit <= 0.0) ==> r.roic == 0.0
    ensures r.Valued? ==> (r.verdict == CreatingValue <==> r.roic > r.wacc)
    ensures r.Valued? ==> (r.verdict == DestroyingValue <==> r.roic < r.wacc)
    ensures r.Valued? ==> (r.verdict == AtThreshold <==> r.roic == r.wacc)
  {
    if x.equity + x.debt == 0.0 then Degenerate(ZeroValueReason)
    else
      var wacc := Wacc(x);
      var roic := Roic(Nopat(x.ebit), InvestedCapital(x));
      Valued(wacc, roic, Classify(roic, wacc))
  }

  /** The balance-sheet rows the calculation reads, in reading order. */
  const WaccBalanceItems: seq<string> := ["Total Equity", "Total Liabilities", "Cash"]

  /** The income-statement rows it reads after them. */
  const WaccIncomeItems: seq<string> := ["EBIT"]

  /** Reads equity, total liabilities, cash and EBIT in the order the
      calculation does, then beta from the profile. */
  function ReadWaccInputs(s: Snapshot): (r: Result<WaccInputs>)
    ensures r.Ok? <==> FirstEmptyRow(s, WaccBalanceItems, WaccIncomeItems).None?
    ensures r.Err? ==> FirstEmptyRow(s, WaccBalanceItems, WaccIncomeItems) == Some(r.fault.item)
    ensures r.Ok? ==> r.value == WaccInputs(
      LastValue(s.balanceSheet, "Total Equity"),
      LastValue(s.balanceSheet, "Total Liabilities"),
      LastValue(s.balanceSheet, "Cash"),
      LastValue(s.financials, "EBIT"),
      GetOr(s.profile, "beta", DefaultBeta))
  {
    FirstEmptyCons(s.balanceSheet, "Total Equity", ["Total Liabilities", "Cash"]);
    FirstEmptyCons(s.balanceSheet, "Total Liabilities", ["Cash"]);
    FirstEmptyCons(s.balanceSheet, "Cash", []);
    FirstEmptyCons(s.financials, "EBIT", []);
    var equity :- LastOrZero(s.balanceSheet, "Total Equity");
    var debt :- LastOrZero(s.balanceSheet, "Total Liabilities");
    var cash :- LastOrZero(s.balanceSheet, "Cash");
    var ebit :- LastOrZero(s.financials, "EBIT");
    Ok(WaccInputs(equity, debt, cash, ebit, GetOr(s.profile, "beta", DefaultBeta)))
  }

  /** `calculate_wacc_roic_and_conclusion` on one snapshot, stated in terms of
      the last values of the rows it reads. */
  function WaccRoic(s: Snapshot): (r: Result<WaccResult>)
    ensures r.Ok? <==> FirstEmptyRow(s, WaccBalanceItems, WaccIncomeItems).None?
    ensures r.Err? ==> FirstEmptyRow(s, WaccBalanceItems, WaccIncomeItems) == Some(r.fault.item)
    ensures var e, d := LastValue(s.balanceSheet, "Total Equity"), LastValue(s.balanceSheet, "Total Liabilities");
      r.Ok? ==> (r.value.Degenerate? <==> e + d == 0.0)
    ensures r.Ok? && r.value.Degenerate? ==> r.value.reason == ZeroValueReason
    ensures var e, d := LastValue(s.balanceSheet, "Total Equity"), LastValue(s.balanceSheet, "Total Liabilities");
      var beta := GetOr(s.profile, "beta", DefaultBeta);
      r.Ok? && r.value.Valued? ==> r.value.wacc * (e + d) == e * CostOfEquity(beta) + d * AfterTaxCostOfDebt
    ensures var e, d := LastValue(s.balanceSheet, "Total Equity"), LastValue(s.balanceSheet, "Total Liabilities");
      var capital := e + d - LastValue(s.balanceSheet, "Cash");
      r.Ok? && r.value.Valued? && capital > 0.0 ==>
        r.value.roic * capital == Nopat(LastValue(s.financials, "EBIT"))
    ensures var e, d := LastValue(s.balanceSheet, "Total Equity"), LastValue(s.balanceSheet, "Total Liabilities");
      var capital := e + d - LastValue(s.balanceSheet, "Cash");
      r.Ok? && r.value.Valued? && (capital <= 0.0 || LastValue(s.financials, "EBIT") <= 0.0) ==>
        r.value.roic == 0.0
    ensures r.Ok? && r.value.Valued? ==> r.value.roic >= 0.0
    ensures r.Ok? && r.value.Valued? ==>
      && (r.value.verdict == CreatingValue <==> r.value.roic > r.value.wacc)
      && (r.value.verdict == DestroyingValue <==> r.value.roic < r.value.wacc)
      && (r.value.verdict == AtThreshold <==> r.value.roic == r.value.wacc)
  {
    var x :- ReadWaccInputs(s);
    Ok(Evaluate(x))
  }

  /** A profile without a beta prices equity at exactly the market return. */
  lemma MissingBetaCostsMarketReturn(s: Snapshot)
    requires "beta" !in s.profile
    requires ReadWaccInputs(s).Ok?
    ensures CostOfEquity(ReadWaccInputs(s).value.beta) == MarketReturn
    ensures CostOfEquity(ReadWaccInputs(s).value.beta) == 0.08
  {
  }

  /** A higher beta never lowers the cost of equity. */
  lemma CostOfEquityMonotone(b1: real, b2: real)
    requires b1 <= b2
    ensures CostOfEquity(b1) <= CostOfEquity(b2)
  {
  }

  /** With non-negative equity and liabilities, WACC lies between the cost of
      equity and the after-tax cost of debt. */
  lemma WaccIsWeightedAverage(x: WaccInputs)
    requires x.equity >= 0.0 && x.debt >= 0.0 && x.equity + x.debt != 0.0
    ensures var c, k, w := CostOfEquity(x.beta), AfterTaxCostOfDebt, Wacc(x);
      (c <= k ==> c <= w <= k) && (k <= c ==> k <= w <= c)
  {
    var c, k, w := CostOfEquity(x.beta), AfterTaxCostOfDebt, Wacc(x);
    if c <= k {
      BetweenWeights(x.equity, x.debt, c, k, w);
    } else {
      BetweenWeights(x.debt, x.equity, k, c, w);
    }
  }

  /** A mean of `lo` and `hi` with non-negative weights lies between them. */
  lemma BetweenWeights(a: real, b: real, lo: real, hi: real, w: real)
    requires a >= 0.0 && b >= 0.0 && a + b > 0.0 && lo <= hi
    requires w * (a + b) == a * lo + b * hi
    ensures lo <= w <= hi
  {
    var v := a + b;
    assert (w - lo) * v == b * (hi - lo) by {
      assert (w - lo) * v == w * v - lo * v;
      assert lo * v == a * lo + b * lo;
    }
    assert (hi - w) * v == a * (hi - lo) by {
      assert (hi - w) * v == hi * v - w * v;
      assert hi * v == a * hi + b * hi;
    }
    MulLeftMonotone(b, 0.0, hi - lo);
    MulLeftMonotone(a, 0.0, hi - lo);
    assert 0.0 * v <= (w - lo) * v;
    assert 0.0 * v <= (hi - w) * v;
    DivideOutPositive(0.0, w - lo, v);
    DivideOutPositive(0.0, hi - w, v);
  }

  /** A company funded by equity alone has WACC equal to its cost of equity. */
  lemma AllEquityWaccIsCostOfEquity(x: WaccInputs)
    requires x.debt == 0.0 && x.equity != 0.0
    ensures Wacc(x) == CostOfEquity(x.beta)
  {
  }

  /** A company funded by liabilities alone has WACC equal to the after-tax
      cost of debt. */
  lemma AllDebtWaccIsAfterTaxCostOfDebt(x: WaccInputs)
    requires x.equity == 0.0 && x.debt != 0.0
    ensures Wacc(x) == AfterTaxCostOfDebt
  {
  }

  /** Without an operating profit ROIC is 0, so a company with non-negative
      funding and beta never creates value. */
  /** Without positive EBIT there is no NOPAT, so ROIC is 0 whatever the
      balance sheet holds. */
  lemma NoProfitMeansZeroRoic(x: WaccInputs)
    requires x.ebit <= 0.0
    requires Evaluate(x).Valued?
    ensures Evaluate(x).roic == 0.0
  {
  }

  /** With non-negative weights and beta the WACC is non-negative, so a zero
      ROIC cannot beat it. */
  lemma NoProfitNeverCreatesValue(x: WaccInputs)
    requires x.ebit <= 0.0
    requires x.equity >= 0.0 && x.debt >= 0.0 && x.beta >= 0.0
    requires Evaluate(x).Valued?
    ensures Evaluate(x).verdict != CreatingValue
  {
    WaccIsWeightedAverage(x);
    assert CostOfEquity(x.beta) >= 0.0;
    assert Wacc(x) >= 0.0;
  }

  /** A negative beta prices equity below the risk-free rate, here at -0.02, so
      an all-equity company without profit is reported as creating value. */
  lemma NegativeBetaNoProfitCreatesValue()
    ensures Evaluate(WaccInputs(100.0, 0.0, 0.0, 0.0, -1.0)) == Valued(-0.02, 0.0, CreatingValue)
  {
  }

  /** A worked example: equity 500, liabilities 500, cash 100, EBIT 200,
      beta 1.2. */
  lemma WorkedExample()
    ensures CostOfEquity(1.2) == 0.09
    ensures Evaluate(WaccInputs(500.0, 500.0, 100.0, 200.0, 1.2))
      == Valued(0.06475, 158.0 / 900.0, CreatingValue)
  {
  }

  /** The same worked example read from statements that report a single period,
      with a market capitalisation in the profile the calculation ignores. */
  lemma WorkedExampleFromSnapshot()
    ensures WaccRoic(Snapshot(
      map["beta" := 1.2, "marketCap" := 1000.0],
      map["Total Equity" := [500.0], "Total Liabilities" := [500.0], "Cash" := [100.0]],
      map["EBIT" := [200.0]],
      map[])) == Ok(Valued(0.06475, 158.0 / 900.0, CreatingValue))
  {
  }
}
