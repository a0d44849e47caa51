/** The standalone Sheets page: the whole page waits for every fetch of the
    sheets, and each successful mutation starts a new fetch. */
module SheetsPage {
  import opened Api
  import opened Records
  import opened SheetLists
  import SheetModal

  datatype PageState = PageState(lists: Lists, loading: bool, showAddModal: bool)

  /** On mount the fetch has started: loading, nothing held, modal closed. */
  const Mount: PageState := PageState(NoSheets, true, false)

  /** A fetch settled; loading ends whatever the outcome. */
  function FetchSettled(p: PageState, resp: Response<seq<Sheet>>): (r: PageState)
    ensures !r.loading && r.showAddModal == p.showAddModal
    ensures r.lists == Fetched(p.lists, resp)
  {
    p.(lists := Fetched(p.lists, resp), loading := false)
  }

  datatype Step = Step(page: PageState, sent: seq<Request>)

  /** A sheet mutation settled: a success starts a re-fetch, which puts the
      page back into its loading state at once; a failure is only logged. */
  function Mutate(p: PageState, req: Request, resp: Response<()>): (r: Step)
    ensures r.sent == Mutation(req, resp)
    ensures r.page.loading <==> p.loading || resp.Ok?
    ensures r.page.lists == p.lists && r.page.showAddModal == p.showAddModal
  {
    Step(p.(loading := p.loading || resp.Ok?), Mutation(req, resp))
  }

  function TogglePinned(p: PageState, id: string, resp: Response<()>): (r: Step)
    ensures |r.sent| >= 1 && r.sent[0] == TogglePin(SheetsApi, id)
    ensures GetAll(SheetsApi) in r.sent <==> resp.Ok?
    ensures r.sent == Mutation(TogglePin(SheetsApi, id), resp)
    ensures resp.Ok? ==> r.page == p.(loading := true)
    ensures resp.Failed? ==> r.page == p
  {
    Mutate(p, TogglePin(SheetsApi, id), resp)
  }

  /** Delete behind `window.confirm`; declining does nothing at all. */
  function Remove(p: PageState, id: string, confirmed: bool, resp: Response<()>): (r: Step)
    ensures r.sent != [] <==> confirmed
    ensures confirmed ==> r.sent[0] == Delete(SheetsApi, id)
    ensures confirmed ==> (GetAll(SheetsApi) in r.sent <==> resp.Ok?)
    ensures confirmed ==> r.sent == Mutation(Delete(SheetsApi, id), resp)
    ensures confirmed && resp.Ok? ==> r.page == p.(loading := true)
    ensures !confirmed || resp.Failed? ==> r.page == p
  {
    if confirmed then Mutate(p, Delete(SheetsApi, id), resp) else Step(p, [])
  }

  /** The page and the add modal after one submit of the modal. */
  datatype AddStep = AddStep(page: PageState, modal: SheetModal.Submission, sent: seq<Request>)

  /** The modal validates, then the page posts the sheet. A success starts
      the re-fetch and closes the modal; a failure is re-thrown to the
      modal, which stays open and shows it. */
  function AddSheet(p: PageState, m: SheetModal.ModalState, resp: Response<()>): (r: AddStep)
    ensures r.modal == SheetModal.Submit(m, resp)
    ensures r.sent == [] <==> SheetModal.Validate(m.name, m.url).Some?
    ensures r.sent != [] ==> r.sent == Mutation(Create(SheetsApi, SheetBody(m.name, m.url)), resp)
    ensures r.modal.closed ==> r.page.loading && !r.page.showAddModal
    ensures r.modal.closed ==> r.page == p.(loading := true, showAddModal := false)
    ensures !r.modal.closed ==> r.page == p
  {
    var sub := SheetModal.Submit(m, resp);
    match sub.added
    case None => AddStep(p, sub, [])
    case Some(body) =>
      var step := Mutate(p, Create(SheetsApi, body), resp);
      AddStep(if sub.closed then step.page.(showAddModal := false) else p, sub, step.sent)
  }

  /** What the page shows: the loading text, or the sections present. */
  datatype View = LoadingView | Sections(pinned: bool, all: bool, emptyState: bool)

  function Render(p: PageState): (v: View)
    ensures v == LoadingView <==> p.loading
    ensures v.Sections? ==> (v.pinned <==> p.lists.pinned != [])
    ensures v.Sections? ==> (v.all <==> p.lists.unpinned != [])
    ensures v.Sections? ==> (v.emptyState <==> !v.pinned && !v.all)
  {
    if p.loading then LoadingView
    else
      var pinned, all := |p.lists.pinned| > 0, |p.lists.unpinned| > 0;
      Sections(pinned, all, !pinned && !all)
  }

  /** On mount the page shows its loading text; once the first fetch
      settles it shows the sections, and after a failure only the empty
      state. */
  lemma MountThenFirstFetch(resp: Response<seq<Sheet>>)
    ensures Render(Mount) == LoadingView
    ensures Render(FetchSettled(Mount, resp)).Sections?
    ensures resp.Failed? ==> Render(FetchSettled(Mount, resp)) == Sections(false, false, true)
  {
  }

  /** After a successful fetch of `all`, the empty state shows exactly when
      the server holds no sheet, and the pinned section exactly when some
      sheet is pinned. */
  lemma EmptyStateIffNoSheets(p: PageState, all: seq<Sheet>)
    ensures var v := Render(FetchSettled(p, Ok(all)));
            && v.Sections?
            && (v.emptyState <==> all == [])
            && (v.pinned <==> exists i :: 0 <= i < |all| && all[i].isPinned)
  {
    var l := Split(all);
    if exists i :: 0 <= i < |all| && all[i].isPinned {
      var i :| 0 <= i < |all| && all[i].isPinned;
      assert all[i] in multiset(all);
      assert all[i] !in multiset(l.unpinned);
      assert all[i] in multiset(l.pinned);
    }
    if l.pinned != [] {
      assert l.pinned[0] in multiset(all);
    }
  }
}
