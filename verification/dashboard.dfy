/** The per-ticker tables: each calculator applied to every company in turn.

    Fetching and pacing are outside the model: the companies arrive already
    fetched, in ticker order.  A fault raised for one company ends the whole
    run, so a table is either complete or the first fault met.
 */
module Dashboard {
  import opened Outcomes
  import opened Statements
  import opened Valuation
  import opened Solvency

  datatype Company = Company(ticker: string, snapshot: Snapshot)

  /** One row of the WACC / ROIC table. */
  datatype WaccRow = WaccRow(ticker: string, wacc: Option<real>, roic: Option<real>, conclusion: string)

  /** One row of the debt-solvency table. */
  datatype SolvencyRow = SolvencyRow(ticker: string, ratios: SolvencyRatios)

  /** Unpacks a result into the row the table shows. */
  function WaccRecord(ticker: string, r: WaccResult): (row: WaccRow)
    ensures row.ticker == ticker
    ensures row.wacc.None? <==> r.Degenerate?
    ensures row.roic.None? <==> r.Degenerate?
    ensures r.Degenerate? ==> row.conclusion == r.reason
    ensures r.Valued? ==> row.wacc == Some(r.wacc) && row.roic == Some(r.roic)
    ensures r.Valued? ==> row.conclusion == Conclusion(r.verdict)
  {
    match r
    case Degenerate(reason) => WaccRow(ticker, None, None, reason)
    case Valued(wacc, roic, verdict) => WaccRow(ticker, Some(wacc), Some(roic), Conclusion(verdict))
  }

  /** The row the WACC loop stores for one company. */
  function WaccRowOf(c: Company): (r: Result<WaccRow>)
    ensures r.Ok? <==> FirstEmptyRow(c.snapshot, WaccBalanceItems, WaccIncomeItems).None?
    ensures r.Err? ==> FirstEmptyRow(c.snapshot, WaccBalanceItems, WaccIncomeItems) == Some(r.fault.item)
    ensures r.Ok? ==> r.value.ticker == c.ticker
    ensures var bs := c.snapshot.balanceSheet;
      r.Ok? ==> (r.value.wacc.None? <==> LastValue(bs, "Total Equity") + LastValue(bs, "Total Liabilities") == 0.0)
    ensures r.Ok? ==> (r.value.roic.None? <==> r.value.wacc.None?)
    ensures r.Ok? && r.value.wacc.None? ==> r.value.conclusion == ZeroValueReason
    ensures r.Ok? && r.value.wacc.Some? ==> r.value.roic.Some? && r.value.roic.value >= 0.0
    ensures r.Ok? && r.value.wacc.Some? && r.value.roic.Some? ==>
      r.value.conclusion == Conclusion(Classify(r.value.roic.value, r.value.wacc.value))
    ensures r.Ok? && r.value.wacc.None? ==> WaccRoic(c.snapshot) == Ok(Degenerate(ZeroValueReason))
    ensures r.Ok? && r.value.wacc.Some? && r.value.roic.Some? ==>
      WaccRoic(c.snapshot) == Ok(Valued(r.value.wacc.value, r.value.roic.value,
                                        Classify(r.value.roic.value, r.value.wacc.value)))
  {
    var r :- WaccRoic(c.snapshot);
    Ok(WaccRecord(c.ticker, r))
  }

  /** The row the debt-solvency loop stores for one company. */
  function SolvencyRowOf(c: Company): (r: Result<SolvencyRow>)
    ensures r.Ok? <==> FirstEmptyRow(c.snapshot, SolvencyBalanceItems, SolvencyIncomeItems).None?
    ensures r.Err? ==> FirstEmptyRow(c.snapshot, SolvencyBalanceItems, SolvencyIncomeItems) == Some(r.fault.item)
    ensures r.Ok? ==> r.value.ticker == c.ticker
    ensures r.Ok? ==> DebtSolvency(c.snapshot) == Ok(r.value.ratios)
  {
    var r :- DebtSolvency(c.snapshot);
    Ok(SolvencyRow(c.ticker, r))
  }

  /** Applies `compute` to each company in order, stopping at the first fault. */
  method Tabulate<R>(companies: seq<Company>, compute: Company -> Result<R>) returns (r: Result<seq<R>>)
    ensures r.Ok? <==> forall i :: 0 <= i < |companies| ==> compute(companies[i]).Ok?
    ensures r.Ok? ==> |r.value| == |companies|
    ensures r.Ok? ==> forall i :: 0 <= i < |companies| ==> r.value[i] == compute(companies[i]).value
    ensures r.Err? ==> exists i :: 0 <= i < |companies| && compute(companies[i]) == Err(r.fault) &&
                                   forall j :: 0 <= j < i ==> compute(companies[j]).Ok?
  {
    var rows: seq<R> := [];
    var i := 0;
    while i < |companies|
      invariant 0 <= i <= |companies|
      invariant |rows| == i
      invariant forall j :: 0 <= j < i ==> compute(companies[j]).Ok? && rows[j] == compute(companies[j]).value
    {
      var out := compute(companies[i]);
      if out.Err? {
        return Err(out.fault);
      }
      rows := rows + [out.value];
      i := i + 1;
    }
    return Ok(rows);
  }

  /** The WACC / ROIC table: one row per company, in order, unless some
      company has an empty row among those the calculation reads, in which
      case the run stops with the first such company's fault. */
  method WaccTable(companies: seq<Company>) returns (t: Result<seq<WaccRow>>)
    ensures t.Ok? <==> forall i :: 0 <= i < |companies| ==>
      FirstEmptyRow(companies[i].snapshot, WaccBalanceItems, WaccIncomeItems).None?
    ensures t.Ok? ==> |t.value| == |companies|
    ensures t.Ok? ==> forall i :: 0 <= i < |companies| ==>
      t.value[i].ticker == companies[i].ticker && WaccRowOf(companies[i]) == Ok(t.value[i])
    ensures t.Err? ==>
      exists i :: (0 <= i < |companies|
        && FirstEmptyRow(companies[i].snapshot, WaccBalanceItems, WaccIncomeItems) == Some(t.fault.item)
        && forall j :: 0 <= j < i ==> FirstEmptyRow(companies[j].snapshot, WaccBalanceItems, WaccIncomeItems).None?)
  {
    t := Tabulate(companies, WaccRowOf);
  }

  /** The debt-solvency table, built the same way. */
  method SolvencyTable(companies: seq<Company>) returns (t: Result<seq<SolvencyRow>>)
    ensures t.Ok? <==> forall i :: 0 <= i < |companies| ==>
      FirstEmptyRow(companies[i].snapshot, SolvencyBalanceItems, SolvencyIncomeItems).None?
    ensures t.Ok? ==> |t.value| == |companies|
    ensures t.Ok? ==> forall i :: 0 <= i < |companies| ==>
      t.value[i].ticker == companies[i].ticker && DebtSolvency(companies[i].snapshot) == Ok(t.value[i].ratios)
    ensures t.Err? ==>
      exists i :: (0 <= i < |companies|
        && FirstEmptyRow(companies[i].snapshot, SolvencyBalanceItems, SolvencyIncomeItems) == Some(t.fault.item)
        && forall j :: 0 <= j < i ==> FirstEmptyRow(companies[j].snapshot, SolvencyBalanceItems, SolvencyIncomeItems).None?)
  {
    t := Tabulate(companies, SolvencyRowOf);
  }

  /** The conclusion column tells the four outcomes apart. */
  lemma ConclusionsDistinct(v: Verdict, w: Verdict)
    ensures Conclusion(v) == Conclusion(w) <==> v == w
    ensures Conclusion(v) != ZeroValueReason
  {
  }

  /** When no row is empty both calculations succeed, and the WACC result is
      degenerate exactly when the debt-to-capital ratio is missing: both test
      whether equity plus total liabilities is zero. */
  lemma DegenerateIffNoDebtToCapital(s: Snapshot)
    requires NoEmptyRows(s.balanceSheet) && NoEmptyRows(s.financials)
    ensures WaccRoic(s).Ok? && DebtSolvency(s).Ok?
    ensures WaccRoic(s).value.Degenerate? <==> DebtSolvency(s).value.debtToCapital.NA?
  {
  }

  /** Neither calculator reads the cash-flow statement, and the solvency
      ratios do not read the profile. */
  lemma UnreadInputsIgnored(s: Snapshot, cashflow: Statement, profile: Profile)
    ensures WaccRoic(s.(cashflow := cashflow)) == WaccRoic(s)
    ensures DebtSolvency(s.(cashflow := cashflow, profile := profile)) == DebtSolvency(s)
  {
    var s1, s2 := s.(cashflow := cashflow), s.(cashflow := cashflow, profile := profile);
    assert ReadWaccInputs(s1) == ReadWaccInputs(s);
    assert ReadSolvencyInputs(s2) == ReadSolvencyInputs(s);
  }
}
