/** The Dashboard: the server's summary behind four stat cards and a pie
    chart, the data-import modal, the pinned tasks, and the connected sheets
    split into pinned and other. Its three fetches are independent; only the
    summary fetch gates the page. */
module Dashboard {
  import opened Wrappers
  import opened Records
  import opened Api
  import opened Money
  import opened SheetLists
  import SheetModal
  import Tasks

  /** The `/dashboard` payload; every field may be missing. */
  datatype ServerSummary = ServerSummary(
    totalSales: Option<real>,
    totalExpenses: Option<real>,
    totalProfit: Option<real>,
    todaySales: Option<real>,
    lastUpdated: Option<string>)

  datatype DashboardState = DashboardState(
    data: Option<ServerSummary>,
    loading: bool,
    dataLink: string,
    showImportModal: bool,
    lists: Lists,
    showAddSheetModal: bool,
    sheetsLoading: bool,
    pinnedTasks: seq<Task>,
    tasksLoading: bool)

  /** On mount all three fetches start; the sheet and task fetches raise
      their own loading flags before their first await. */
  const Mount: DashboardState := DashboardState(None, true, "", false, NoSheets, false, true, [], true)

  /** The summary settled, with the `lastUpdated` handed to the app header
      (only on success, and possibly missing). Loading ends either way. */
  datatype SummaryStep = SummaryStep(state: DashboardState, notified: Option<Option<string>>)

  function SummaryArrived(st: DashboardState, resp: Response<ServerSummary>): (r: SummaryStep)
    ensures !r.state.loading
    ensures r.state.data == (if resp.Ok? then Some(resp.value) else st.data)
    ensures r.notified.Some? <==> resp.Ok?
    ensures resp.Ok? ==> r.notified.value == resp.value.lastUpdated
    ensures r.state == st.(data := r.state.data, loading := false)
  {
    match resp
    case Ok(summary) => SummaryStep(st.(data := Some(summary), loading := false), Some(summary.lastUpdated))
    case Failed(_) => SummaryStep(st.(loading := false), None)
  }

  function SheetsArrived(st: DashboardState, resp: Response<seq<Sheet>>): (r: DashboardState)
    ensures !r.sheetsLoading && r.lists == Fetched(st.lists, resp)
    ensures r == st.(lists := Fetched(st.lists, resp), sheetsLoading := false)
  {
    st.(lists := Fetched(st.lists, resp), sheetsLoading := false)
  }

  function PinnedTasksArrived(st: DashboardState, resp: Response<seq<Task>>): (r: DashboardState)
    ensures !r.tasksLoading
    ensures r.pinnedTasks == (if resp.Ok? then resp.value else st.pinnedTasks)
    ensures r == st.(pinnedTasks := r.pinnedTasks, tasksLoading := false)
  {
    st.(pinnedTasks := if resp.Ok? then resp.value else st.pinnedTasks, tasksLoading := false)
  }

  /** `dashboardData?.field?.toFixed(2) || 0`, in hundredths: a present value
      is rounded to the cent, a missing one shows the literal 0. */
  function StatCard(value: Option<real>): (shown: Option<int>)
    ensures shown.Some? <==> value.Some?
    ensures value.Some? ==> shown.value == Round2(value.value)
    ensures value.Some? && 0.0 <= value.value ==>
              -0.005 < Cents(shown.value) - value.value <= 0.005
    ensures value.Some? && value.value < 0.0 ==>
              -0.005 <= Cents(shown.value) - value.value < 0.005
  {
    match value
    case Some(x) =>
      var n := Round2(x);
      assert Cents(n) - x == (n as real - 100.0 * x) / 100.0;
      Some(n)
    case None => None
  }

  /** `dashboardData?.field || 0` for the pie chart's three slices. */
  function PieValues(data: Option<ServerSummary>): (slices: seq<real>)
    ensures |slices| == 3
    ensures data.None? ==> slices == [0.0, 0.0, 0.0]
    ensures data.Some? ==> slices[0] == data.value.totalSales.GetOr(0.0)
    ensures data.Some? ==> slices[1] == data.value.totalExpenses.GetOr(0.0)
    ensures data.Some? ==> slices[2] == data.value.totalProfit.GetOr(0.0)
  {
    match data
    case None => [0.0, 0.0, 0.0]
    case Some(d) => [d.totalSales.GetOr(0.0), d.totalExpenses.GetOr(0.0), d.totalProfit.GetOr(0.0)]
  }

  /** The totals behind the three pie slices, in slice order. */
  function PieTotals(d: ServerSummary): seq<Option<real>> {
    [d.totalSales, d.totalExpenses, d.totalProfit]
  }

  /** For each of the three totals, the stat card and the pie slice agree to
      within half a paisa, whatever the sign; a missing total reads zero in
      both. */
  lemma StatCardMatchesPie(d: ServerSummary, k: nat)
    requires k < 3
    ensures PieTotals(d)[k].Some? ==>
              -0.005 <= Cents(StatCard(PieTotals(d)[k]).value) - PieValues(Some(d))[k] <= 0.005
    ensures PieTotals(d)[k].None? ==> StatCard(PieTotals(d)[k]).None? && PieValues(Some(d))[k] == 0.0
  {
  }

  /** A handler's result: the new state, the requests issued, any alert. */
  datatype Step = Step(state: DashboardState, sent: seq<Request>, alert: Option<string>)

  /** The import buttons post the held link with their data type. A success
      alerts, clears the link, closes the modal and re-fetches the summary
      without raising the page's loading flag; a failure alerts the server's
      message (the text "undefined" when there is none) and keeps both. */
  function Import(st: DashboardState, dataType: string, resp: Response<()>): (r: Step)
    ensures |r.sent| >= 1 && r.sent[0] == ImportData(st.dataLink, dataType)
    ensures resp.Ok? ==> r.sent == [r.sent[0], GetDashboardData]
    ensures resp.Ok? ==> r.alert == Some(dataType + " data imported successfully")
    ensures resp.Ok? ==> r.state == st.(dataLink := "", showImportModal := false)
    ensures resp.Failed? ==> r.state == st && r.sent == [r.sent[0]]
    ensures resp.Failed? ==> r.alert == Some("Failed to import data: " + resp.message.GetOr("undefined"))
  {
    var req := ImportData(st.dataLink, dataType);
    match resp
    case Ok(_) =>
      Step(st.(dataLink := "", showImportModal := false), [req, GetDashboardData],
           Some(dataType + " data imported successfully"))
    case Failed(message) =>
      Step(st, [req], Some("Failed to import data: " + message.GetOr("undefined")))
  }

  /** A sheet mutation settled: a success starts a re-fetch of the sheets
      (raising `sheetsLoading`); a failure is only logged. */
  function SheetMutated(st: DashboardState, req: Request, resp: Response<()>): (r: Step)
    ensures r.sent == Mutation(req, resp) && r.alert.None?
    ensures r.state == st.(sheetsLoading := st.sheetsLoading || resp.Ok?)
  {
    Step(st.(sheetsLoading := st.sheetsLoading || resp.Ok?), Mutation(req, resp), None)
  }

  function TogglePinned(st: DashboardState, id: string, resp: Response<()>): (r: Step)
    ensures |r.sent| >= 1 && r.sent[0] == TogglePin(SheetsApi, id)
    ensures GetAll(SheetsApi) in r.sent <==> resp.Ok?
    ensures r.sent == Mutation(TogglePin(SheetsApi, id), resp)
    ensures r.state.lists == st.lists && r.alert.None?
    ensures r.state == st.(sheetsLoading := st.sheetsLoading || resp.Ok?)
  {
    SheetMutated(st, TogglePin(SheetsApi, id), resp)
  }

  function DeleteSheet(st: DashboardState, id: string, confirmed: bool, resp: Response<()>): (r: Step)
    ensures r.sent != [] <==> confirmed
    ensures confirmed ==> r.sent[0] == Delete(SheetsApi, id)
    ensures confirmed ==> (GetAll(SheetsApi) in r.sent <==> resp.Ok?)
    ensures confirmed ==> r.sent == Mutation(Delete(SheetsApi, id), resp)
    ensures confirmed ==> r.alert.None? && r.state == st.(sheetsLoading := st.sheetsLoading || resp.Ok?)
    ensures !confirmed ==> r == Step(st, [], None)
  {
    if confirmed then SheetMutated(st, Delete(SheetsApi, id), resp) else Step(st, [], None)
  }

  datatype AddStep = AddStep(state: DashboardState, modal: SheetModal.Submission, sent: seq<Request>)

  /** The add-sheet modal over the Dashboard: the handler only posts and
      starts the re-fetch; it is the modal's own close on success that hides
      it, and a failure re-thrown to the modal leaves it open. */
  function AddSheet(st: DashboardState, m: SheetModal.ModalState, resp: Response<()>): (r: AddStep)
    ensures r.modal == SheetModal.Submit(m, resp)
    ensures r.sent == [] <==> SheetModal.Validate(m.name, m.url).Some?
    ensures r.sent != [] ==> r.sent == Mutation(Create(SheetsApi, SheetBody(m.name, m.url)), resp)
    ensures r.modal.closed ==> r.state.sheetsLoading && !r.state.showAddSheetModal
    ensures r.modal.closed ==> r.state == st.(sheetsLoading := true, showAddSheetModal := false)
    ensures !r.modal.closed ==> r.state == st
  {
    var sub := SheetModal.Submit(m, resp);
    match sub.added
    case None => AddStep(st, sub, [])
    case Some(body) =>
      var step := SheetMutated(st, Create(SheetsApi, body), resp);
      AddStep(if sub.closed then step.state.(showAddSheetModal := false) else st, sub, step.sent)
  }

  /** A pinned task's card: "Unassigned" stands in for an empty assignee and
      the due line appears only for a non-empty due date. */
  function AssigneeLabel(t: Task): (shown: string)
    ensures shown != ""
    ensures t.assignedTo == "" ==> shown == "Unassigned"
    ensures t.assignedTo != "" ==> shown == t.assignedTo
  {
    if t.assignedTo == "" then "Unassigned" else t.assignedTo
  }

  /** The due line of a pinned-task card appears exactly when the Tasks
      table would format a date rather than print "N/A". */
  function ShowsDueLine(t: Task): (shown: bool)
    ensures shown <==> Tasks.DueDateCell(t).Formatted?
  {
    t.dueDate.Some? && t.dueDate.value != ""
  }

  /** What the page shows once the summary fetch has settled. */
  datatype View =
    | LoadingView
    | Sections(pinnedTasksBadge: Option<nat>, connectedBadge: nat, noPinnedSheets: bool,
               allSheetsBadge: Option<nat>)

  function Render(st: DashboardState): (v: View)
    ensures v == LoadingView <==> st.loading
    ensures v.Sections? ==> (v.pinnedTasksBadge.Some? <==> st.pinnedTasks != [])
    ensures v.Sections? && v.pinnedTasksBadge.Some? ==> v.pinnedTasksBadge.value == |st.pinnedTasks|
    ensures v.Sections? ==> v.connectedBadge == |st.lists.pinned| + |st.lists.unpinned|
    ensures v.Sections? ==> (v.noPinnedSheets <==> st.lists.pinned == [])
    ensures v.Sections? ==> (v.allSheetsBadge.Some? <==> st.lists.unpinned != [])
    ensures v.Sections? && v.allSheetsBadge.Some? ==> v.allSheetsBadge.value == |st.lists.unpinned|
  {
    if st.loading then LoadingView
    else
      Sections(if |st.pinnedTasks| > 0 then Some(|st.pinnedTasks|) else None,
               |st.lists.pinned| + |st.lists.unpinned|,
               |st.lists.pinned| == 0,
               if |st.lists.unpinned| > 0 then Some(|st.lists.unpinned|) else None)
  }

  /** On mount the page shows its loading text, and the summary settling
      alone, whatever its outcome, replaces it with the sections while the
      sheet and task fetches may still be pending. */
  lemma MountWaitsForSummaryOnly(resp: Response<ServerSummary>)
    ensures Render(Mount) == LoadingView
    ensures Mount.sheetsLoading && Mount.tasksLoading
    ensures Render(SummaryArrived(Mount, resp).state).Sections?
  {
  }

  /** After a successful sheets fetch the "Connected Sheets" badge counts
      every sheet the server returned, whatever the pin flags. */
  lemma ConnectedBadgeCountsAll(st: DashboardState, all: seq<Sheet>)
    requires !st.loading
    ensures Render(SheetsArrived(st, Ok(all))).connectedBadge == |all|
  {
  }
}
