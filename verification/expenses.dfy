/** The Expense Tracker screen: the total card, the Pending and Approved
    counts, the form with its "Pending" default, and the create/delete flow. */
module Expenses {
  import opened Wrappers
  import opened Records
  import opened Api
  import opened Seqs
  import opened Crud

  /** The form starts, and after a successful create restarts, as "Pending". */
  const BlankForm: ExpenseForm := ExpenseForm("", "", "", "Pending")

  type ExpenseScreen = Screen<Expense, ExpenseForm>

  /** `parseFloat(exp.amount || 0)`: a missing or empty amount counts 0. */
  function AmountOrZero(e: Expense): real {
    e.amount.GetOr(0.0)
  }

  method TotalExpenses(expenses: seq<Expense>) returns (total: real)
    ensures total == Sum(expenses, AmountOrZero)
    ensures |expenses| == 0 ==> total == 0.0
  {
    total := Reduce(expenses, AmountOrZero);
  }

  /** Missing amounts add nothing: leaving them out does not change the total. */
  lemma {:induction false} MissingAmountsAddNothing(expenses: seq<Expense>)
    ensures Sum(expenses, AmountOrZero) == Sum(Filter(expenses, HasAmount), AmountOrZero)
    decreases |expenses|
  {
    if |expenses| > 0 {
      MissingAmountsAddNothing(expenses[1..]);
      if HasAmount(expenses[0]) {
        assert Filter(expenses, HasAmount) == [expenses[0]] + Filter(expenses[1..], HasAmount);
        assert ([expenses[0]] + Filter(expenses[1..], HasAmount))[1..] == Filter(expenses[1..], HasAmount);
      } else {
        assert AmountOrZero(expenses[0]) == 0.0;
        assert Filter(expenses, HasAmount) == Filter(expenses[1..], HasAmount);
      }
    }
  }

  predicate HasAmount(e: Expense) {
    e.amount.Some?
  }

  function HasStatus(status: string): Expense -> bool {
    (e: Expense) => e.status == status
  }

  /** A status card: expenses whose status is exactly `status`. The screen
      shows it for "Pending" and for "Approved". */
  function CountStatus(expenses: seq<Expense>, status: string): (n: nat)
    ensures n <= |expenses|
    ensures n == |expenses| <==> forall e :: e in expenses ==> e.status == status
  {
    Count(expenses, HasStatus(status))
  }

  /** The two cards never add up to more than the list; they add up to all
      of it exactly when no expense has another status (a "Rejected" one
      counts toward neither). */
  lemma PendingApprovedBound(expenses: seq<Expense>)
    ensures CountStatus(expenses, "Pending") + CountStatus(expenses, "Approved") <= |expenses|
    ensures CountStatus(expenses, "Pending") + CountStatus(expenses, "Approved") == |expenses| <==>
              forall e :: e in expenses ==> e.status == "Pending" || e.status == "Approved"
  {
    var p, q := HasStatus("Pending"), HasStatus("Approved");
    FilterDisjointUnion(expenses, p, q);
    FilterKeepsAll(expenses, Either(p, q));
  }

  function Submit(s: ExpenseScreen, resp: Response<()>): (o: Outcome<Expense, ExpenseForm>)
    ensures |o.sent| >= 1 && o.sent[0] == Create(ExpenseApi, ExpenseBody(s.form))
    ensures resp.Ok? ==> o.sent[1..] == [GetAll(ExpenseApi)]
    ensures resp.Ok? ==> o.screen.form.status == "Pending" && o.screen.form == BlankForm && !o.screen.showForm
    ensures resp.Ok? ==> o.alert.None? && o.screen.items == s.items && o.screen.loading == s.loading
    ensures resp.Failed? ==> o.sent == [o.sent[0]] && o.screen == s
    ensures resp.Failed? ==> o.alert == Some("Failed to create expense")
  {
    Created(s, Create(ExpenseApi, ExpenseBody(s.form)), BlankForm, [GetAll(ExpenseApi)],
            resp, "Failed to create expense")
  }

  function Remove(s: ExpenseScreen, id: string, confirmed: bool, resp: Response<()>): (o: Outcome<Expense, ExpenseForm>)
    ensures o.screen == s
    ensures Delete(ExpenseApi, id) in o.sent <==> confirmed
    ensures !confirmed ==> o.sent == [] && o.alert.None?
    ensures confirmed && resp.Ok? ==> o.sent == [Delete(ExpenseApi, id), GetAll(ExpenseApi)] && o.alert.None?
    ensures confirmed && resp.Failed? ==>
              o.sent == [Delete(ExpenseApi, id)] && o.alert == Some("Failed to delete expense")
  {
    Deleted(s, confirmed, Delete(ExpenseApi, id), [GetAll(ExpenseApi)], resp, "Failed to delete expense")
  }
}
