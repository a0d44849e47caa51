/** The Tasks screen: the four count cards, the table cells derived from a
    task (priority colour, due date), the form defaults, and the create,
    delete, status-change and pin flows. */
module Tasks {
  import opened Wrappers
  import opened Records
  import opened Api
  import opened Seqs
  import opened Crud

  /** The form starts, and after a successful create restarts, with priority
      "Medium" and status "Pending". */
  const BlankForm: TaskForm := TaskForm("", "", "", "", "Medium", "Pending")

  /** The status options of the row's select. */
  const StatusOptions: seq<string> := ["Pending", "In Progress", "Completed"]

  type TaskScreen = Screen<Task, TaskForm>

  const Refetch: seq<Request> := [GetAll(TaskApi)]

  function HasStatus(status: string): Task -> bool {
    (t: Task) => t.status == status
  }

  /** A count card: tasks whose status is exactly `status`. */
  function CountStatus(tasks: seq<Task>, status: string): (n: nat)
    ensures n <= |tasks|
    ensures n == |tasks| <==> forall t :: t in tasks ==> t.status == status
  {
    Count(tasks, HasStatus(status))
  }

  /** The Pending, In Progress and Completed cards never add up to more than
      "Total Tasks", and add up to it exactly when every task's status is one
      of the three options. */
  lemma StatusCountsBound(tasks: seq<Task>)
    ensures CountStatus(tasks, "Pending") + CountStatus(tasks, "In Progress")
              + CountStatus(tasks, "Completed") <= |tasks|
    ensures CountStatus(tasks, "Pending") + CountStatus(tasks, "In Progress")
              + CountStatus(tasks, "Completed") == |tasks|
            <==> forall t :: t in tasks ==> t.status in StatusOptions
  {
    var p, q, r := HasStatus("Pending"), HasStatus("In Progress"), HasStatus("Completed");
    FilterDisjointUnion(tasks, p, q);
    FilterDisjointUnion(tasks, Either(p, q), r);
    FilterKeepsAll(tasks, Either(Either(p, q), r));
  }

  /** The four count cards above the table. */
  datatype TaskCards = TaskCards(total: nat, pending: nat, inProgress: nat, completed: nat)

  function Cards(tasks: seq<Task>): (c: TaskCards)
    ensures c.total == |tasks|
    ensures c.pending == CountStatus(tasks, "Pending")
    ensures c.inProgress == CountStatus(tasks, "In Progress")
    ensures c.completed == CountStatus(tasks, "Completed")
    ensures c.pending + c.inProgress + c.completed <= c.total
    ensures c.pending + c.inProgress + c.completed == c.total <==>
              forall t :: t in tasks ==> t.status in StatusOptions
  {
    StatusCountsBound(tasks);
    TaskCards(|tasks|, CountStatus(tasks, "Pending"), CountStatus(tasks, "In Progress"),
              CountStatus(tasks, "Completed"))
  }

  const HighColour := "#ff6b6b"
  const MediumColour := "#ffd43b"
  const OtherColour := "#51cf66"

  /** Background of the priority badge: anything but "High" or "Medium"
      (including "Low" and unexpected values) is green. */
  function PriorityColour(priority: string): (colour: string)
    ensures priority == "High" ==> colour == HighColour
    ensures priority == "Medium" ==> colour == MediumColour
    ensures priority != "High" && priority != "Medium" ==> colour == OtherColour
  {
    if priority == "High" then HighColour
    else if priority == "Medium" then MediumColour
    else OtherColour
  }

  /** The colour tells the three priority classes apart: two priorities get
      the same colour iff both are "High", both "Medium", or both neither. */
  lemma PriorityColourSeparatesClasses(p: string, q: string)
    ensures PriorityColour(p) == PriorityColour(q) <==>
              (p == "High" <==> q == "High") && (p == "Medium" <==> q == "Medium")
  {
  }

  /** The due-date cell: "N/A", or the date handed to the locale formatter. */
  datatype DueCell = NotAvailable | Formatted(date: string)

  /** A due date that is absent or empty is falsy and shows "N/A". */
  function DueDateCell(t: Task): (cell: DueCell)
    ensures cell.NotAvailable? <==> t.dueDate.None? || t.dueDate == Some("")
    ensures cell.Formatted? ==> cell.date == t.dueDate.value
  {
    match t.dueDate
    case Some(d) => if d == "" then NotAvailable else Formatted(d)
    case None => NotAvailable
  }

  function Submit(s: TaskScreen, resp: Response<()>): (o: Outcome<Task, TaskForm>)
    ensures |o.sent| >= 1 && o.sent[0] == Create(TaskApi, TaskBody(s.form))
    ensures resp.Ok? ==> o.sent[1..] == Refetch
    ensures resp.Ok? ==> o.screen.form.priority == "Medium" && o.screen.form.status == "Pending"
    ensures resp.Ok? ==> o.screen.form == BlankForm && !o.screen.showForm
    ensures resp.Ok? ==> o.alert.None? && o.screen.items == s.items && o.screen.loading == s.loading
    ensures resp.Failed? ==> o.sent == [o.sent[0]] && o.screen == s
    ensures resp.Failed? ==> o.alert == Some("Failed to create task")
  {
    Created(s, Create(TaskApi, TaskBody(s.form)), BlankForm, Refetch, resp, "Failed to create task")
  }

  function Remove(s: TaskScreen, id: string, confirmed: bool, resp: Response<()>): (o: Outcome<Task, TaskForm>)
    ensures o.screen == s
    ensures !confirmed ==> o.sent == [] && o.alert.None?
    ensures confirmed && resp.Ok? ==> o.sent == [Delete(TaskApi, id)] + Refetch && o.alert.None?
    ensures confirmed && resp.Failed? ==>
              o.sent == [Delete(TaskApi, id)] && o.alert == Some("Failed to delete task")
  {
    Deleted(s, confirmed, Delete(TaskApi, id), Refetch, resp, "Failed to delete task")
  }

  /** Choosing a status in a row sends an update whose body is the new status
      alone; the list is re-fetched only after it succeeds. */
  function ChangeStatus(s: TaskScreen, id: string, status: string, resp: Response<()>): (o: Outcome<Task, TaskForm>)
    ensures o.screen == s
    ensures |o.sent| >= 1 && o.sent[0] == UpdateStatus(id, status)
    ensures GetAll(TaskApi) in o.sent <==> resp.Ok?
    ensures resp.Ok? ==> o.sent == [UpdateStatus(id, status)] + Refetch && o.alert.None?
    ensures resp.Failed? ==> o.sent == [UpdateStatus(id, status)]
    ensures resp.Failed? ==> o.alert == Some("Failed to update task")
  {
    Mutated(s, UpdateStatus(id, status), Refetch, resp, "Failed to update task")
  }

  function TogglePinned(s: TaskScreen, id: string, resp: Response<()>): (o: Outcome<Task, TaskForm>)
    ensures o.screen == s
    ensures |o.sent| >= 1 && o.sent[0] == TogglePin(TaskApi, id)
    ensures GetAll(TaskApi) in o.sent <==> resp.Ok?
    ensures resp.Ok? ==> o.sent == [TogglePin(TaskApi, id)] + Refetch && o.alert.None?
    ensures resp.Failed? ==> o.sent == [TogglePin(TaskApi, id)]
    ensures resp.Failed? ==> o.alert == Some("Failed to toggle pin")
  {
    Mutated(s, TogglePin(TaskApi, id), Refetch, resp, "Failed to toggle pin")
  }
}
