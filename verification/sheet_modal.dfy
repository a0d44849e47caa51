/** The "Add Google Sheet" modal shared by the Dashboard and the Sheets page:
    three validation checks in a fixed order, then the parent's add handler,
    after which the modal either closes with its fields cleared or stays open
    showing why the add failed. */
module SheetModal {
  import opened Wrappers
  import opened Api
  import opened Text

  const NameMissing := "Please enter a sheet name"
  const UrlMissing := "Please enter a Google Sheets URL"
  const UrlInvalid := "Please enter a valid Google Sheets URL"
  const AddFailed := "Failed to add sheet"
  /** The only test a URL must pass: it contains this text somewhere. */
  const SheetsHost := "docs.google.com/spreadsheets"

  /** The modal's own state; `error` is shown when non-empty. */
  datatype ModalState = ModalState(name: string, url: string, error: string, loading: bool)

  const Opened: ModalState := ModalState("", "", "", false)

  /** The first failing check's message, or None when the input passes. The
      name and URL are only trimmed for the emptiness checks. */
  function Validate(name: string, url: string): (err: Option<string>)
    ensures err == Some(NameMissing) <==> AllSpace(name)
    ensures err == Some(UrlMissing) <==> !AllSpace(name) && AllSpace(url)
    ensures err == Some(UrlInvalid) <==> !AllSpace(name) && !AllSpace(url) && !Contains(url, SheetsHost)
    ensures err.None? <==> !AllSpace(name) && !AllSpace(url) && Contains(url, SheetsHost)
  {
    TrimEmptyIffAllSpace(name);
    TrimEmptyIffAllSpace(url);
    IncludesIffContains(url, SheetsHost);
    if Trim(name) == "" then Some(NameMissing)
    else if Trim(url) == "" then Some(UrlMissing)
    else if !Includes(url, SheetsHost) then Some(UrlInvalid)
    else None
  }

  /** The result of one submit: the modal's state afterwards, the sheet
      handed to the parent's `onAdd` (if it was called), and whether the
      modal asked to be closed. */
  datatype Submission = Submission(modal: ModalState, added: Option<Body>, closed: bool)

  /** Submit with the parent's add settling as `resp`. */
  function Submit(m: ModalState, resp: Response<()>): (r: Submission)
    ensures r.added.Some? <==> Validate(m.name, m.url).None?
    ensures r.added.Some? ==> r.added.value == SheetBody(m.name, m.url)
    ensures r.closed <==> r.added.Some? && resp.Ok?
    ensures r.closed ==> r.modal == Opened
    ensures !r.closed ==> r.modal.name == m.name && r.modal.url == m.url
    ensures r.modal.error == "" <==> r.closed
    ensures r.added.None? ==> r.modal == m.(error := Validate(m.name, m.url).value)
    ensures r.added.Some? && resp.Failed? ==>
              r.modal.error == MessageOr(resp.message, AddFailed) && !r.modal.loading
  {
    var cleared := m.(error := "");
    match Validate(m.name, m.url)
    case Some(message) => Submission(cleared.(error := message), None, false)
    case None =>
      var added := Some(SheetBody(m.name, m.url));
      match resp
      case Ok(_) => Submission(Opened, added, true)
      case Failed(message) =>
        Submission(cleared.(error := MessageOr(message, AddFailed), loading := false), added, false)
  }

  /** The message of an earlier attempt never influences the next one. */
  lemma StaleErrorIgnored(m: ModalState, stale: string, resp: Response<()>)
    ensures Submit(m.(error := stale), resp) == Submit(m, resp)
  {
  }
}
