/** Financial statements and the line-item lookup both calculators share.

    A statement (balance sheet, income statement, cash flow) maps a line-item
    name to its row of values, one per reporting period.  Every field the
    calculators use is read as "the last element of the row, or 0 when the row
    is absent".
 */
module Statements {
  import opened Outcomes

  type Statement = map<string, seq<real>>

  /** Company profile fields; only numeric ones are ever read. */
  type Profile = map<string, real>

  /** Everything fetched for one ticker. */
  datatype Snapshot = Snapshot(
    profile: Profile,
    balanceSheet: Statement,
    financials: Statement,
    cashflow: Statement)

  /** Reading `item` does not fail: the row is absent or has a last element. */
  predicate Readable(st: Statement, item: string) {
    item !in st || |st[item]| > 0
  }

  /** Every row of the statement reports at least one period. */
  predicate NoEmptyRows(st: Statement) {
    forall item :: item in st ==> |st[item]| > 0
  }

  /** The last value of the row, or 0 when the row is absent; this is what a
      lookup of `item` yields whenever it succeeds. */
  function LastValue(st: Statement, item: string): real {
    if item in st && |st[item]| > 0 then st[item][|st[item]| - 1] else 0.0
  }

  /** `st.loc[item][-1] if item in st.index else 0`. */
  function LastOrZero(st: Statement, item: string): (r: Result<real>)
    ensures r.Ok? <==> Readable(st, item)
    ensures item !in st ==> r == Ok(0.0)
    ensures item in st && r.Ok? ==> r.value == st[item][|st[item]| - 1]
    ensures r.Ok? ==> r.value == LastValue(st, item)
    ensures r.Err? ==> r.fault == EmptyRow(item)
    ensures NoEmptyRows(st) ==> r.Ok?
  {
    if item !in st then Ok(0.0)
    else if |st[item]| == 0 then Err(EmptyRow(item))
    else Ok(st[item][|st[item]| - 1])
  }

  /** Appending a value to a row makes it the value read, and leaves every
      other line item's reading as it was. */
  lemma AppendedValueIsRead(st: Statement, item: string, row: seq<real>, v: real, other: string)
    requires other != item
    ensures LastOrZero(st[item := row + [v]], item) == Ok(v)
    ensures LastOrZero(st[item := row + [v]], other) == LastOrZero(st, other)
  {
  }

  /** Dropping a row from a statement makes it read as 0. */
  lemma RemovedRowReadsZero(st: Statement, item: string)
    ensures LastOrZero(st - {item}, item) == Ok(0.0)
  {
  }

  /** None of `items` would fail to read. */
  predicate AllReadable(st: Statement, items: seq<string>) {
    forall i :: 0 <= i < |items| ==> Readable(st, items[i])
  }

  /** The first of `items`, in reading order, whose row is present but empty. */
  function FirstEmpty(st: Statement, items: seq<string>): (r: Option<string>)
    ensures r.None? <==> AllReadable(st, items)
    ensures r.Some? ==> exists k :: 0 <= k < |items| && items[k] == r.value && !Readable(st, items[k])
                                    && AllReadable(st, items[..k])
  {
    if |items| == 0 then None
    else if !Readable(st, items[0]) then
      assert AllReadable(st, items[..0]);
      Some(items[0])
    else
      var rest := FirstEmpty(st, items[1..]);
      if rest.Some? then
        var k :| 0 <= k < |items[1..]| && items[1..][k] == rest.value && !Readable(st, items[1..][k])
                 && AllReadable(st, items[1..][..k]);
        assert items[..k + 1] == [items[0]] + items[1..][..k];
        rest
      else
        rest
  }

  /** The search tests the first item, then moves on to the rest. */
  lemma FirstEmptyCons(st: Statement, item: string, rest: seq<string>)
    ensures FirstEmpty(st, [item] + rest) == if !Readable(st, item) then Some(item) else FirstEmpty(st, rest)
  {
  }

  /** The first empty row a calculation meets when it reads `balance` from
      the balance sheet and then `income` from the income statement. */
  function FirstEmptyRow(s: Snapshot, balance: seq<string>, income: seq<string>): (r: Option<string>)
    ensures r.None? <==> AllReadable(s.balanceSheet, balance) && AllReadable(s.financials, income)
    ensures !AllReadable(s.balanceSheet, balance) ==> r == FirstEmpty(s.balanceSheet, balance)
    ensures AllReadable(s.balanceSheet, balance) ==> r == FirstEmpty(s.financials, income)
  {
    if FirstEmpty(s.balanceSheet, balance).Some? then FirstEmpty(s.balanceSheet, balance)
    else FirstEmpty(s.financials, income)
  }

  /** `info.get(key, default)`. */
  function GetOr(p: Profile, key: string, default: real): (r: real)
    ensures key in p ==> r == p[key]
    ensures key !in p ==> r == default
  {
    if key in p then p[key] else default
  }
}
