/** The Inventory screen: the stock table with its low-stock label, the
    summary cards, the alert fed by the server's own low-stock list, and the
    create/delete flow that re-fetches both lists. */
module Inventory {
  import opened Wrappers
  import opened Records
  import opened Api
  import opened Seqs
  import opened Crud

  const BlankForm: ItemForm := ItemForm("", "", "", "", "", "")

  /** The screen state plus the low-stock list, fetched separately from the
      server and never derived from `screen.items` on the client. */
  datatype InventoryState = InventoryState(screen: Screen<Item, ItemForm>, lowStock: seq<Item>)

  /** Both lists are fetched again after every successful mutation. */
  const Refetch: seq<Request> := [GetAll(InventoryApi), GetLowStock]

  function Mount(): InventoryState {
    InventoryState(Crud.Mount(BlankForm), [])
  }

  /** Stock value of one row: quantity × price. */
  function ValueOf(i: Item): real {
    i.quantity as real * i.price
  }

  predicate IsLowStock(i: Item) {
    i.quantity <= i.minStock
  }

  /** The status cell of a row. */
  function StockStatus(i: Item): (status: string)
    ensures status == "Low Stock" || status == "In Stock"
    ensures status == "Low Stock" <==> i.quantity <= i.minStock
  {
    if i.quantity <= i.minStock then "Low Stock" else "In Stock"
  }

  /** The rows labelled "Low Stock" are exactly the client-side low-stock
      filter of the held list; equality with the minimum counts as low. */
  lemma LowStockLabelsMatchFilter(items: seq<Item>)
    ensures forall k :: 0 <= k < |items| ==>
              (StockStatus(items[k]) == "Low Stock" <==> items[k] in Filter(items, IsLowStock))
  {
  }

  /** The three summary cards. */
  datatype InventoryFigures = InventoryFigures(totalItems: nat, lowStockCount: nat, totalValue: real)

  method Figures(st: InventoryState) returns (r: InventoryFigures)
    ensures r.totalItems == |st.screen.items|
    ensures r.lowStockCount == |st.lowStock|
    ensures r.totalValue == Sum(st.screen.items, ValueOf)
    ensures |st.screen.items| == 0 ==> r.totalValue == 0.0
  {
    var value := Reduce(st.screen.items, ValueOf);
    r := InventoryFigures(|st.screen.items|, |st.lowStock|, value);
  }

  /** The "items are below minimum stock level" banner. */
  function ShowLowStockAlert(st: InventoryState): (shown: bool)
    ensures shown <==> st.lowStock != []
  {
    |st.lowStock| > 0
  }

  /** The main list settled: it alone ends the loading state. */
  function InventoryFetched(st: InventoryState, resp: Response<seq<Item>>): (r: InventoryState)
    ensures !r.screen.loading && r.lowStock == st.lowStock
    ensures r.screen.items == (if resp.Ok? then resp.value else st.screen.items)
    ensures r == st.(screen := st.screen.(items := r.screen.items, loading := false))
  {
    st.(screen := Fetched(st.screen, resp))
  }

  /** The low-stock list settled: a failure is only logged, and the loading
      flag is not touched. */
  function LowStockFetched(st: InventoryState, resp: Response<seq<Item>>): (r: InventoryState)
    ensures r.screen == st.screen
    ensures r.lowStock == (if resp.Ok? then resp.value else st.lowStock)
  {
    if resp.Ok? then st.(lowStock := resp.value) else st
  }

  /** A handler's result on this screen. */
  datatype Step = Step(state: InventoryState, sent: seq<Request>, alert: Option<string>)

  function Lift(st: InventoryState, o: Outcome<Item, ItemForm>): Step {
    Step(st.(screen := o.screen), o.sent, o.alert)
  }

  /** The form posts its raw fields; a success resets and hides it and
      re-fetches BOTH the inventory and the low-stock list. */
  function Submit(st: InventoryState, resp: Response<()>): (r: Step)
    ensures r.state.lowStock == st.lowStock && r.state.screen.items == st.screen.items
    ensures |r.sent| >= 1 && r.sent[0] == Create(InventoryApi, ItemBody(st.screen.form))
    ensures resp.Ok? ==> r.sent[1..] == Refetch
    ensures resp.Ok? ==> r.state.screen.form == BlankForm && !r.state.screen.showForm
    ensures resp.Ok? ==> r.alert.None? && r.state.screen.loading == st.screen.loading
    ensures resp.Failed? ==> r.sent == [r.sent[0]] && r.state == st
    ensures resp.Failed? ==> r.alert == Some("Failed to create inventory item")
  {
    Lift(st, Created(st.screen, Create(InventoryApi, ItemBody(st.screen.form)), BlankForm, Refetch,
                     resp, "Failed to create inventory item"))
  }

  /** Delete after `window.confirm`; a success re-fetches both lists. */
  function Remove(st: InventoryState, id: string, confirmed: bool, resp: Response<()>): (r: Step)
    ensures r.state == st
    ensures !confirmed ==> r.sent == [] && r.alert.None?
    ensures confirmed && resp.Ok? ==> r.sent == [Delete(InventoryApi, id)] + Refetch && r.alert.None?
    ensures confirmed && resp.Failed? ==>
              r.sent == [Delete(InventoryApi, id)] && r.alert == Some("Failed to delete item")
  {
    Lift(st, Deleted(st.screen, confirmed, Delete(InventoryApi, id), Refetch, resp, "Failed to delete item"))
  }

  /** On mount the screen is loading with nothing held; the low-stock fetch
      settling does not end that, only the main list's fetch does. */
  lemma MountLoadingEndsWithMainList(main: Response<seq<Item>>, low: Response<seq<Item>>)
    ensures Mount().screen.loading && Mount().screen.items == [] && Mount().lowStock == []
    ensures LowStockFetched(Mount(), low).screen.loading
    ensures !InventoryFetched(LowStockFetched(Mount(), low), main).screen.loading
  {
  }
}
