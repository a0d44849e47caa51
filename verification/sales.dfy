/** The Sales screen: the summary cards, the sale form's number conversion,
    and its create/delete flow. */
module Sales {
  import opened Wrappers
  import opened Records
  import opened Api
  import opened Money
  import opened Seqs
  import opened Crud

  type SalesScreen = Screen<Sale, SaleForm>

  const BlankForm: SaleForm := SaleForm("", None, None, None)

  function AmountOf(s: Sale): real { s.totalAmount }
  function ProfitOf(s: Sale): real { s.profit }
  function QuantityOf(s: Sale): real { s.quantity as real }

  /** The exact value of `quantity` units at `unitPrice` each. */
  function LineValue(quantity: int, unitPrice: real): real { quantity as real * unitPrice }

  /** The numeric inputs are `required`: the browser blocks submission while
      any of them is empty. */
  predicate Complete(f: SaleForm) {
    f.quantity.Some? && f.unitPrice.Some? && f.profit.Some?
  }

  /** The posted sale: integer quantity (`parseInt`), prices as typed
      (`parseFloat`), and the total rounded to whole paise (`toFixed(2)`). */
  function ToNewSale(f: SaleForm): (n: NewSale)
    requires Complete(f)
    ensures n.productName == f.productName
    ensures n.unitPrice == f.unitPrice.value && n.profit == f.profit.value
    ensures n.quantity == Truncate(f.quantity.value)
    ensures n.totalAmount == Cents(Round2(LineValue(n.quantity, n.unitPrice)))
    ensures 0.0 <= LineValue(n.quantity, n.unitPrice) ==>
              -0.005 < n.totalAmount - LineValue(n.quantity, n.unitPrice) <= 0.005
  {
    var q := Truncate(f.quantity.value);
    var exact := LineValue(q, f.unitPrice.value);
    var paise := Round2(exact);
    assert 0.0 <= exact ==> -0.5 < paise as real - 100.0 * exact <= 0.5;
    NewSale(f.productName, q, f.unitPrice.value, f.profit.value, Cents(paise))
  }

  /** The posted total is already whole paise: showing it again to two
      decimals gives back the rounded line value, not a second rounding. */
  lemma TotalAmountRedisplays(f: SaleForm)
    requires Complete(f)
    ensures var n := ToNewSale(f);
            Round2(n.totalAmount) == Round2(LineValue(n.quantity, n.unitPrice))
  {
    var n := ToNewSale(f);
    Round2OfCents(Round2(LineValue(n.quantity, n.unitPrice)));
  }

  /** The four summary cards. */
  datatype SalesFigures = SalesFigures(totalSales: real, totalProfit: real, itemsSold: real, transactions: nat)

  method Figures(sales: seq<Sale>) returns (r: SalesFigures)
    ensures r.totalSales == Sum(sales, AmountOf)
    ensures r.totalProfit == Sum(sales, ProfitOf)
    ensures r.itemsSold == Sum(sales, QuantityOf)
    ensures r.transactions == |sales|
    ensures |sales| == 0 ==> r == SalesFigures(0.0, 0.0, 0.0, 0)
  {
    var totalSales := Reduce(sales, AmountOf);
    var totalProfit := Reduce(sales, ProfitOf);
    var itemsSold := Reduce(sales, QuantityOf);
    r := SalesFigures(totalSales, totalProfit, itemsSold, |sales|);
  }

  /** Submitting the form: the converted sale is posted; a success resets
      and hides the form and re-fetches the list. */
  function Submit(s: SalesScreen, resp: Response<()>): (o: Outcome<Sale, SaleForm>)
    requires Complete(s.form)
    ensures |o.sent| >= 1 && o.sent[0] == Create(SalesApi, SaleBody(ToNewSale(s.form)))
    ensures resp.Ok? ==> o.sent == [o.sent[0], GetAll(SalesApi)]
    ensures resp.Ok? ==> o.screen.form == BlankForm && !o.screen.showForm && o.alert.None?
    ensures resp.Ok? ==> o.screen.items == s.items && o.screen.loading == s.loading
    ensures resp.Failed? ==> o.sent == [o.sent[0]]
    ensures resp.Failed? ==> o.screen == s && o.alert == Some("Failed to create sale")
  {
    Created(s, Create(SalesApi, SaleBody(ToNewSale(s.form))), BlankForm, [GetAll(SalesApi)],
            resp, "Failed to create sale")
  }

  function Remove(s: SalesScreen, id: string, confirmed: bool, resp: Response<()>): (o: Outcome<Sale, SaleForm>)
    ensures o.screen == s
    ensures !confirmed ==> o.sent == [] && o.alert.None?
    ensures confirmed && resp.Ok? ==> o.sent == [Delete(SalesApi, id), GetAll(SalesApi)] && o.alert.None?
    ensures confirmed && resp.Failed? ==>
              o.sent == [Delete(SalesApi, id)] && o.alert == Some("Failed to delete sale")
  {
    Deleted(s, confirmed, Delete(SalesApi, id), [GetAll(SalesApi)], resp, "Failed to delete sale")
  }
}
