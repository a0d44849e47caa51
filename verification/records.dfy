/** The records the server returns and the forms the screens submit. Money
    fields are exact rupee amounts; status and priority fields are the
    strings the server sends, since the screens compare them as strings. */
module Records {
  import opened Wrappers

  datatype Sale = Sale(
    id: string,
    productName: string,
    quantity: int,
    unitPrice: real,
    totalAmount: real,
    profit: real)

  datatype Item = Item(
    id: string,
    productName: string,
    sku: string,
    category: string,
    quantity: int,
    price: real,
    minStock: int)

  /** `amount` is None when the record has no amount (`undefined`); a `null`
      or empty-string amount is not told apart from that. */
  datatype Expense = Expense(
    id: string,
    category: string,
    description: string,
    amount: Option<real>,
    status: string)

  /** `dueDate` is None when the record has no due date. */
  datatype Task = Task(
    id: string,
    title: string,
    description: string,
    assignedTo: string,
    dueDate: Option<string>,
    priority: string,
    status: string,
    isPinned: bool)

  datatype Sheet = Sheet(id: string, name: string, url: string, isPinned: bool)

  /** The sale form: numeric inputs hold the number typed, None while empty. */
  datatype SaleForm = SaleForm(
    productName: string,
    quantity: Option<real>,
    unitPrice: Option<real>,
    profit: Option<real>)

  /** What the sale form posts: the typed fields converted to numbers and the
      derived total. */
  datatype NewSale = NewSale(
    productName: string,
    quantity: int,
    unitPrice: real,
    profit: real,
    totalAmount: real)

  /** The inventory, expense and task forms post their raw field strings. */
  datatype ItemForm = ItemForm(
    productName: string,
    quantity: string,
    price: string,
    minStock: string,
    category: string,
    sku: string)

  datatype ExpenseForm = ExpenseForm(
    category: string,
    description: string,
    amount: string,
    status: string)

  datatype TaskForm = TaskForm(
    title: string,
    description: string,
    assignedTo: string,
    dueDate: string,
    priority: string,
    status: string)
}
