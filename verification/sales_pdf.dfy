/** The line layout of the Sales PDF export. Rows start at y = 45 below the
    header band and step down 8 units each; before a row, a cursor past 270
    starts a new page at y = 20. The two summary lines follow the last row
    with no page-break check. Fonts, colours, the header band and the rupee
    formatting of the cells are left to the PDF library and not modelled. */
module SalesPdf {
  import opened Records
  import opened Seqs
  import Sales

  const FirstRowY := 45
  const RowStep := 8
  const PageBottom := 270
  const TopMargin := 20
  const NameWidth := 20
  /** Gap between the last row's cursor and the "Total Sales" line, and
      between that line and "Total Profit". */
  const SummaryGap := 10
  const SummaryStep := 8

  /** Rows the first page holds (y = 45, 53, ..., 269) and every later page
      holds (y = 20, 28, ..., 268). */
  const FirstPageRows := 29
  const PageRows := 32

  /** A position in the document: page index from 0 and vertical offset. */
  datatype Cursor = Cursor(page: nat, y: int)

  /** The check made before each row: afterwards the cursor is never past
      270, and it moved to a fresh page exactly when it was. */
  function BreakIfFull(c: Cursor): (r: Cursor)
    ensures r.y <= PageBottom
    ensures r.page == c.page <==> c.y <= PageBottom
    ensures r.page != c.page ==> r.page == c.page + 1 && r.y == TopMargin
    ensures c.y <= PageBottom ==> r == c
  {
    if c.y > PageBottom then Cursor(c.page + 1, TopMargin) else c
  }

  /** The step made after each row: 8 units down the same page. */
  function Advance(c: Cursor): (r: Cursor)
    ensures r.page == c.page && r.y - c.y == RowStep
  {
    c.(y := c.y + RowStep)
  }

  /** Closed-form position of row `i` (from 0): the first page takes 29 rows
      from y = 45, every later page 32 rows from y = 20. */
  function RowPlace(i: nat): (c: Cursor)
    ensures TopMargin <= c.y <= PageBottom
    ensures i < FirstPageRows <==> c.page == 0
  {
    if i < FirstPageRows then Cursor(0, FirstRowY + RowStep * i)
    else
      var k := i - FirstPageRows;
      Cursor(1 + k / PageRows, TopMargin + RowStep * (k % PageRows))
  }

  /** The cursor after `n` rows have been printed. */
  function EndCursor(n: nat): Cursor {
    if n == 0 then Cursor(0, FirstRowY) else Advance(RowPlace(n - 1))
  }

  /** The loop's first check does not break: row 0 goes at y = 45. */
  lemma FirstRowPlace()
    ensures BreakIfFull(EndCursor(0)) == RowPlace(0)
  {
  }

  /** One iteration of the loop (advance by 8, then break if past 270) moves
      from each row's closed-form position to the next one's. */
  lemma RowPlaceStep(i: nat)
    ensures BreakIfFull(Advance(RowPlace(i))) == RowPlace(i + 1)
  {
    if i + 1 < FirstPageRows {
    } else if i + 1 == FirstPageRows {
      assert RowPlace(i).y == 269;
      assert RowPlace(i + 1) == Cursor(1, TopMargin);
    } else {
      var k := i - FirstPageRows;
      var q, m := k / PageRows, k % PageRows;
      assert k == PageRows * q + m && 0 <= m < PageRows;
      if m + 1 < PageRows {
        assert k + 1 == PageRows * q + (m + 1);
        assert (k + 1) / PageRows == q && (k + 1) % PageRows == m + 1;
      } else {
        assert k + 1 == PageRows * (q + 1) + 0;
        assert (k + 1) / PageRows == q + 1 && (k + 1) % PageRows == 0;
      }
    }
  }

  /** Consecutive rows are exactly 8 apart on one page; otherwise the second
      opens the next page at the top margin, and only after a cursor past 270. */
  lemma RowsAdvanceByStep(i: nat)
    ensures RowPlace(i + 1).page == RowPlace(i).page ==> RowPlace(i + 1).y == RowPlace(i).y + RowStep
    ensures RowPlace(i + 1).page != RowPlace(i).page ==>
              && RowPlace(i + 1).page == RowPlace(i).page + 1
              && RowPlace(i + 1).y == TopMargin
              && RowPlace(i).y + RowStep > PageBottom
  {
    RowPlaceStep(i);
  }

  /** `productName.substring(0, 20)`. */
  function Clip(name: string): (r: string)
    ensures |r| == if |name| < NameWidth then |name| else NameWidth
    ensures |r| <= NameWidth && r == name[..|r|]
  {
    if |name| <= NameWidth then name else name[..NameWidth]
  }

  datatype Row = Row(page: nat, y: int, product: string, quantity: int,
                     unitPrice: real, totalAmount: real, profit: real)

  datatype Summary = Summary(page: nat, salesY: int, profitY: int, totalSales: real, totalProfit: real)

  datatype Layout = Layout(rows: seq<Row>, summary: Summary)

  /** The cells of a row show its sale, the product name clipped to 20. */
  predicate Shows(r: Row, s: Sale) {
    && r.product == Clip(s.productName)
    && r.quantity == s.quantity
    && r.unitPrice == s.unitPrice
    && r.totalAmount == s.totalAmount
    && r.profit == s.profit
  }

  method ExportLayout(sales: seq<Sale>) returns (doc: Layout)
    ensures |doc.rows| == |sales|
    ensures forall j :: 0 <= j < |sales| ==> Shows(doc.rows[j], sales[j])
    ensures forall j :: 0 <= j < |sales| ==>
              doc.rows[j].page == RowPlace(j).page && doc.rows[j].y == RowPlace(j).y
    ensures forall j :: 0 <= j < |sales| ==> TopMargin <= doc.rows[j].y <= PageBottom
    ensures doc.summary.page == EndCursor(|sales|).page
    ensures doc.summary.salesY == EndCursor(|sales|).y + SummaryGap
    ensures doc.summary.profitY == doc.summary.salesY + SummaryStep
    ensures doc.summary.totalSales == Sum(sales, Sales.AmountOf)
    ensures doc.summary.totalProfit == Sum(sales, Sales.ProfitOf)
  {
    var c := Cursor(0, FirstRowY);
    var rows: seq<Row> := [];
    var i := 0;
    while i < |sales|
      invariant 0 <= i <= |sales|
      invariant |rows| == i
      invariant c == EndCursor(i)
      invariant forall j :: 0 <= j < i ==> Shows(rows[j], sales[j])
      invariant forall j :: 0 <= j < i ==> rows[j].page == RowPlace(j).page && rows[j].y == RowPlace(j).y
    {
      if i == 0 { FirstRowPlace(); } else { RowPlaceStep(i - 1); }
      c := BreakIfFull(c);
      assert c == RowPlace(i);
      var s := sales[i];
      rows := rows + [Row(c.page, c.y, Clip(s.productName), s.quantity, s.unitPrice, s.totalAmount, s.profit)];
      c := Advance(c);
      i := i + 1;
    }
    var totalSales := Reduce(sales, Sales.AmountOf);
    var totalProfit := Reduce(sales, Sales.ProfitOf);
    var y := c.y + SummaryGap;
    doc := Layout(rows, Summary(c.page, y, y + SummaryStep, totalSales, totalProfit));
  }

  /** The summary lines are never moved to a new page: after exactly one full
      first page of rows the "Total Profit" line sits at y = 295, below the
      270 limit the rows respect. */
  lemma SummaryIgnoresPageLimit()
    ensures EndCursor(FirstPageRows).page == 0
    ensures EndCursor(FirstPageRows).y + SummaryGap + SummaryStep == 295
  {
  }
}
