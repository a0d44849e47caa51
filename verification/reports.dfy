/** The Reports screen: one reduction pass over the sales, expense and
    inventory lists into the report summary, with a profit margin whose
    division is guarded, and the page shown once the fetch has settled. */
module Reports {
  import opened Wrappers
  import opened Records
  import opened Api
  import opened Money
  import opened Seqs
  import Sales
  import Inventory
  import Expenses

  /** The summary. `totalExpenses` is None where the source's plain `+`
      would meet a missing amount and yield NaN; `profitMargin` is in
      hundredths of a percent. */
  datatype ReportSummary = ReportSummary(
    totalSales: real,
    totalExpenses: Option<real>,
    totalProfit: real,
    inventoryValue: real,
    salesCount: nat,
    expenseCount: nat,
    inventoryCount: nat,
    profitMargin: int)

  /** The exact margin percentage, 100 × profit / sales. */
  function Percent(totalProfit: real, totalSales: real): real
    requires totalSales != 0.0
  {
    100.0 * totalProfit / totalSales
  }

  /** `totalSales > 0 ? (totalProfit / totalSales * 100).toFixed(2) : 0`:
      zero without dividing when sales are not positive, otherwise the
      percentage to the nearest hundredth. */
  function ProfitMargin(totalProfit: real, totalSales: real): (m: int)
    ensures totalSales <= 0.0 ==> m == 0
    ensures totalSales > 0.0 && totalProfit >= 0.0 ==>
              -0.5 < m as real - 100.0 * Percent(totalProfit, totalSales) <= 0.5
    ensures totalSales > 0.0 && totalProfit < 0.0 ==>
              -0.5 <= m as real - 100.0 * Percent(totalProfit, totalSales) < 0.5
  {
    if totalSales > 0.0 then Round2(Percent(totalProfit, totalSales)) else 0
  }

  /** A profit between nothing and the whole of the sales gives a margin
      between 0.00 % and 100.00 %. */
  lemma ProfitMarginBounds(totalProfit: real, totalSales: real)
    requires 0.0 < totalSales && 0.0 <= totalProfit <= totalSales
    ensures 0 <= ProfitMargin(totalProfit, totalSales) <= 10000
  {
    var x := Percent(totalProfit, totalSales);
    assert x <= 100.0 by {
      assert totalProfit / totalSales <= 1.0;
    }
  }

  predicate AllAmounts(expenses: seq<Expense>) {
    forall k :: 0 <= k < |expenses| ==> expenses[k].amount.Some?
  }

  /** The raw expense total as a value: None once any amount is missing. */
  function ExpenseTotal(expenses: seq<Expense>): (t: Option<real>)
    ensures t.Some? <==> AllAmounts(expenses)
    ensures t.Some? ==> t.value == Sum(expenses, Expenses.AmountOrZero)
    decreases |expenses|
  {
    if |expenses| == 0 then Some(0.0)
    else
      var rest := ExpenseTotal(expenses[1..]);
      assert AllAmounts(expenses) <==> expenses[0].amount.Some? && AllAmounts(expenses[1..]) by {
        assert forall k :: 1 <= k < |expenses| ==> expenses[k] == expenses[1..][k - 1];
      }
      if expenses[0].amount.Some? && rest.Some? then Some(expenses[0].amount.value + rest.value)
      else None
  }

  /** `expenses.reduce((sum, e) => sum + e.amount, 0)`: a missing amount
      turns the running total into NaN for good. */
  method ReportExpenses(expenses: seq<Expense>) returns (total: Option<real>)
    ensures total.Some? <==> AllAmounts(expenses)
    ensures total.Some? ==> total.value == Sum(expenses, Expenses.AmountOrZero)
    ensures total == ExpenseTotal(expenses)
  {
    total := Some(0.0);
    var i := 0;
    while i < |expenses|
      invariant 0 <= i <= |expenses|
      invariant total.Some? <==> AllAmounts(expenses[..i])
      invariant total.Some? ==> total.value == Sum(expenses[..i], Expenses.AmountOrZero)
    {
      assert expenses[..i + 1] == expenses[..i] + [expenses[i]];
      SumSnoc(expenses[..i], expenses[i], Expenses.AmountOrZero);
      var e := expenses[i];
      total := if total.Some? && e.amount.Some? then Some(total.value + e.amount.value) else None;
      i := i + 1;
    }
    assert expenses[..|expenses|] == expenses;
  }

  /** The summary `generateReport` stores, as a value. */
  function Summarize(sales: seq<Sale>, expenses: seq<Expense>, inventory: seq<Item>): (r: ReportSummary)
    ensures r.totalExpenses.Some? <==> AllAmounts(expenses)
    ensures sales == [] && expenses == [] && inventory == [] ==>
              r == ReportSummary(0.0, Some(0.0), 0.0, 0.0, 0, 0, 0, 0)
  {
    var totalSales := Sum(sales, Sales.AmountOf);
    var totalProfit := Sum(sales, Sales.ProfitOf);
    ReportSummary(totalSales, ExpenseTotal(expenses), totalProfit, Sum(inventory, Inventory.ValueOf),
                  |sales|, |expenses|, |inventory|, ProfitMargin(totalProfit, totalSales))
  }

  method GenerateReport(sales: seq<Sale>, expenses: seq<Expense>, inventory: seq<Item>)
    returns (r: ReportSummary)
    ensures r == Summarize(sales, expenses, inventory)
    ensures r.totalSales == Sum(sales, Sales.AmountOf)
    ensures r.totalProfit == Sum(sales, Sales.ProfitOf)
    ensures r.inventoryValue == Sum(inventory, Inventory.ValueOf)
    ensures r.totalExpenses.Some? <==> AllAmounts(expenses)
    ensures r.totalExpenses.Some? ==> r.totalExpenses.value == Sum(expenses, Expenses.AmountOrZero)
    ensures r.salesCount == |sales| && r.expenseCount == |expenses| && r.inventoryCount == |inventory|
    ensures r.profitMargin == ProfitMargin(r.totalProfit, r.totalSales)
    ensures sales == [] && expenses == [] && inventory == [] ==>
              r == ReportSummary(0.0, Some(0.0), 0.0, 0.0, 0, 0, 0, 0)
  {
    var totalSales := Reduce(sales, Sales.AmountOf);
    var totalExpenses := ReportExpenses(expenses);
    var totalProfit := Reduce(sales, Sales.ProfitOf);
    var inventoryValue := Reduce(inventory, Inventory.ValueOf);
    r := ReportSummary(totalSales, totalExpenses, totalProfit, inventoryValue,
                       |sales|, |expenses|, |inventory|, ProfitMargin(totalProfit, totalSales));
  }

  /** One sale of 2 × 100 with profit 20, one expense of 50 and one item of
      10 × 5 give totals 200 / 50 / 20 / 50 and a margin of 10.00 %. */
  lemma WorkedExample()
    ensures var sales := [Sale("s1", "Widget", 2, 100.0, 200.0, 20.0)];
            var expenses := [Expense("e1", "Rent", "", Some(50.0), "Pending")];
            var inventory := [Item("i1", "Widget", "W-1", "Parts", 10, 5.0, 2)];
            && Sum(sales, Sales.AmountOf) == 200.0
            && Sum(expenses, Expenses.AmountOrZero) == 50.0
            && AllAmounts(expenses)
            && Sum(sales, Sales.ProfitOf) == 20.0
            && Sum(inventory, Inventory.ValueOf) == 50.0
            && ProfitMargin(20.0, 200.0) == 1000
  {
    assert Percent(20.0, 200.0) == 10.0;
    Round2OfCents(1000);
    assert Cents(1000) == 10.0;
  }

  /** The screen: loading until the three fetches settle together. */
  datatype ReportView = ReportView(loading: bool, data: Option<ReportSummary>)

  const Mount: ReportView := ReportView(true, None)

  /** The three lists the joined fetch delivers. */
  datatype ReportLists = ReportLists(sales: seq<Sale>, expenses: seq<Expense>, inventory: seq<Item>)

  /** The joined fetch settled: on success the summary of the three lists is
      held; a failure of any of them is only logged. Loading ends either way. */
  function Settled(v: ReportView, resp: Response<ReportLists>): (r: ReportView)
    ensures !r.loading
    ensures resp.Failed? ==> r.data == v.data
    ensures resp.Ok? ==> r.data.Some?
    ensures resp.Ok? ==> r.data.value == Summarize(resp.value.sales, resp.value.expenses, resp.value.inventory)
    ensures resp.Ok? ==> r.data.value.totalSales == Sum(resp.value.sales, Sales.AmountOf)
    ensures resp.Ok? ==> r.data.value.totalProfit == Sum(resp.value.sales, Sales.ProfitOf)
    ensures resp.Ok? ==> r.data.value.inventoryValue == Sum(resp.value.inventory, Inventory.ValueOf)
    ensures resp.Ok? ==>
              r.data.value.profitMargin == ProfitMargin(r.data.value.totalProfit, r.data.value.totalSales)
  {
    match resp
    case Ok(lists) => ReportView(false, Some(Summarize(lists.sales, lists.expenses, lists.inventory)))
    case Failed(_) => ReportView(false, v.data)
  }

  datatype Page = LoadingPage | Cards(summary: ReportSummary) | Unavailable | RenderFailure

  /** The page as written: past loading it reads `reportData.totalSales`
      unconditionally, which throws while `reportData` is still null. */
  function RenderAsWritten(v: ReportView): (p: Page)
    ensures p == RenderFailure <==> !v.loading && v.data.None?
    ensures p == LoadingPage <==> v.loading
    ensures p != Unavailable
  {
    if v.loading then LoadingPage
    else if v.data.None? then RenderFailure
    else Cards(v.data.value)
  }

  /** A failed first fetch leaves the page unrenderable. */
  lemma FailedFetchBreaksPage(message: Option<string>)
    ensures RenderAsWritten(Settled(Mount, Failed(message))) == RenderFailure
  {
  }

  /** The page as evidently intended: a report that never arrived shows an
      empty state instead of throwing. */
  function Render(v: ReportView): (p: Page)
    ensures p != RenderFailure
    ensures p == LoadingPage <==> v.loading
    ensures p.Cards? <==> !v.loading && v.data.Some?
    ensures p.Cards? ==> p.summary == v.data.value
    ensures RenderAsWritten(v) != RenderFailure ==> p == RenderAsWritten(v)
  {
    if v.loading then LoadingPage
    else if v.data.None? then Unavailable
    else Cards(v.data.value)
  }
}
