/** The application shell: the login gate keyed on the stored token, the
    active module and its fallback to the Dashboard, and the header's
    last-updated time fed by the Dashboard. */
module App {
  import opened Wrappers

  /** The eight screens the shell can mount. */
  datatype Module =
    | DashboardView | SalesView | InventoryView | ExpensesView
    | TasksView | ReportsView | SheetsView | AdminView

  /** The module id the navigation bar stores for each screen. */
  function ModuleId(m: Module): string {
    match m
    case DashboardView => "dashboard"
    case SalesView => "sales"
    case InventoryView => "inventory"
    case ExpensesView => "expenses"
    case TasksView => "tasks"
    case ReportsView => "reports"
    case SheetsView => "sheets"
    case AdminView => "admin"
  }

  /** The switch on the active module: a known id mounts its screen, any
      other id mounts the Dashboard. */
  function ViewFor(id: string): (m: Module)
    ensures ModuleId(m) == id || (m == DashboardView && forall v: Module :: ModuleId(v) != id)
  {
    match id
    case "dashboard" => DashboardView
    case "sales" => SalesView
    case "inventory" => InventoryView
    case "expenses" => ExpensesView
    case "tasks" => TasksView
    case "reports" => ReportsView
    case "sheets" => SheetsView
    case "admin" => AdminView
    case _ => DashboardView
  }

  /** Every screen is reached from its own id, so no two share one. */
  lemma ViewForRoundTrip(m: Module)
    ensures ViewFor(ModuleId(m)) == m
  {
  }

  const TokenKey := "token"
  const HomeModule := "dashboard"

  /** `!!localStorage.getItem("token")`: a stored, non-empty token. */
  predicate HasToken(storage: map<string, string>) {
    TokenKey in storage && storage[TokenKey] != ""
  }

  datatype AppState = AppState(
    loggedIn: bool,
    activeModule: string,
    lastUpdated: Option<string>,
    storage: map<string, string>)

  /** The login flag agrees with the stored token. */
  predicate Consistent(s: AppState) {
    s.loggedIn <==> HasToken(s.storage)
  }

  /** A page load reads the flag from storage and starts on the Dashboard. */
  function Start(storage: map<string, string>): (s: AppState)
    ensures Consistent(s)
    ensures s.loggedIn <==> HasToken(storage)
    ensures s.activeModule == HomeModule && s.lastUpdated.None? && s.storage == storage
  {
    AppState(HasToken(storage), HomeModule, None, storage)
  }

  /** The login screen's success path: a non-empty token is stored and the
      shell flips to logged in; an empty or missing token leaves everything
      as it was (the login screen reports it instead). */
  function SignIn(s: AppState, token: string): (r: AppState)
    ensures token != "" ==> r.loggedIn && r.storage == s.storage[TokenKey := token]
    ensures token != "" ==> Consistent(r)
    ensures token == "" ==> r == s
    ensures r.activeModule == s.activeModule && r.lastUpdated == s.lastUpdated
  {
    if token != "" then s.(loggedIn := true, storage := s.storage[TokenKey := token]) else s
  }

  /** Logout removes the token and shows the login screen without a reload:
      the active module survives it. */
  function Logout(s: AppState): (r: AppState)
    ensures !r.loggedIn && TokenKey !in r.storage && Consistent(r)
    ensures r.storage == s.storage - {TokenKey}
    ensures forall k :: k in s.storage && k != TokenKey ==> k in r.storage && r.storage[k] == s.storage[k]
    ensures r.activeModule == s.activeModule && r.lastUpdated == s.lastUpdated
  {
    s.(loggedIn := false, storage := s.storage - {TokenKey})
  }

  /** A 401 from any request removes the token and reloads the page, which
      starts the shell afresh on the Dashboard. */
  function Unauthorized(s: AppState): (r: AppState)
    ensures !r.loggedIn && TokenKey !in r.storage && Consistent(r)
    ensures r.activeModule == HomeModule && r.lastUpdated.None?
    ensures r.storage == s.storage - {TokenKey}
    ensures forall k :: k in s.storage && k != TokenKey ==> k in r.storage && r.storage[k] == s.storage[k]
  {
    Start(s.storage - {TokenKey})
  }

  function Navigate(s: AppState, id: string): (r: AppState)
    ensures r.activeModule == id
    ensures r.loggedIn == s.loggedIn && r.storage == s.storage && r.lastUpdated == s.lastUpdated
  {
    s.(activeModule := id)
  }

  /** The Dashboard's summary fetch reporting its `lastUpdated`. */
  function DataUpdated(s: AppState, lastUpdated: Option<string>): (r: AppState)
    ensures r.lastUpdated == lastUpdated
    ensures r.loggedIn == s.loggedIn && r.storage == s.storage && r.activeModule == s.activeModule
  {
    s.(lastUpdated := lastUpdated)
  }

  /** Navigation and header updates keep the flag and the storage in step. */
  lemma ConsistencyPreserved(s: AppState, id: string, lastUpdated: Option<string>)
    requires Consistent(s)
    ensures Consistent(Navigate(s, id)) && Consistent(DataUpdated(s, lastUpdated))
  {
  }

  datatype Screen = LoginScreen | ModuleScreen(view: Module)

  /** Logged out, the login screen replaces everything; logged in, the
      navigation bar and the active module are shown. */
  function Render(s: AppState): (v: Screen)
    ensures v == LoginScreen <==> !s.loggedIn
    ensures v.ModuleScreen? ==> v.view == ViewFor(s.activeModule)
  {
    if s.loggedIn then ModuleScreen(ViewFor(s.activeModule)) else LoginScreen
  }

  /** Logging out and back in without a reload returns to the same screen;
      a rejected session always comes back on the Dashboard. */
  lemma ReloginKeepsModule(s: AppState, token: string)
    requires token != ""
    ensures Render(SignIn(Logout(s), token)) == ModuleScreen(ViewFor(s.activeModule))
    ensures Render(SignIn(Unauthorized(s), token)) == ModuleScreen(DashboardView)
  {
  }
}
