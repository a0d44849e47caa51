/** The REST calls the screens issue and the responses they receive. Nothing
    is sent here: a handler returns the requests it issues, in order, and the
    server's answer to an awaited call is a parameter of the handler. */
module Api {
  import opened Wrappers
  import opened Records

  /** The client objects of the REST service (salesAPI, inventoryAPI, ...). */
  datatype Endpoint = SalesApi | InventoryApi | ExpenseApi | TaskApi | SheetsApi

  datatype Body =
    | SaleBody(sale: NewSale)
    | ItemBody(item: ItemForm)
    | ExpenseBody(expense: ExpenseForm)
    | TaskBody(task: TaskForm)
    | SheetBody(name: string, url: string)

  datatype Request =
    | GetAll(endpoint: Endpoint)
    | GetLowStock
    | GetPinnedTasks
    | GetDashboardData
    | Create(endpoint: Endpoint, body: Body)
    | Delete(endpoint: Endpoint, id: string)
    /** PUT of a task whose body is `{ status }` and nothing else. */
    | UpdateStatus(id: string, status: string)
    | TogglePin(endpoint: Endpoint, id: string)
    | ImportData(link: string, dataType: string)

  /** The outcome of an awaited call: the response data, or a rejection
      carrying the server's `response.data.message` when it sent one. */
  datatype Response<+T> = Ok(value: T) | Failed(message: Option<string>)

  /** `err.response?.data?.message || fallback`: the server's message unless
      it is missing or empty. */
  function MessageOr(message: Option<string>, fallback: string): (r: string)
    ensures message.Some? && message.value != "" ==> r == message.value
    ensures message.None? || message.value == "" ==> r == fallback
    ensures fallback != "" ==> r != ""
  {
    if message.Some? && message.value != "" then message.value else fallback
  }
}
