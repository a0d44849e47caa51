/** The list-plus-form pattern shared by the Sales, Inventory, Expenses and
    Tasks screens: fetch the collection on mount, post the form, delete after a
    confirmation, and after a successful mutation re-fetch the whole
    collection rather than patch the held copy. */
module Crud {
  import opened Wrappers
  import opened Api

  /** The state of one screen: the last fetched snapshot, the loading flag
      (true until the first fetch settles), the form's visibility and fields. */
  datatype Screen<T, F> = Screen(items: seq<T>, loading: bool, showForm: bool, form: F)

  /** A handler's result: the new state, the requests it issued in order, and
      the `alert` it raised, if any. */
  datatype Outcome<T, F> = Outcome(screen: Screen<T, F>, sent: seq<Request>, alert: Option<string>)

  /** The state on mount, before the first fetch settles. */
  function Mount<T, F>(blank: F): Screen<T, F> {
    Screen([], true, false, blank)
  }

  /** A fetch settled: a success replaces the snapshot wholesale, a failure is
      only logged and keeps it; either way loading ends. */
  function Fetched<T, F>(s: Screen<T, F>, resp: Response<seq<T>>): (r: Screen<T, F>)
    ensures !r.loading
    ensures resp.Ok? ==> r.items == resp.value
    ensures resp.Failed? ==> r.items == s.items
    ensures r.showForm == s.showForm && r.form == s.form
  {
    match resp
    case Ok(items) => s.(items := items, loading := false)
    case Failed(_) => s.(loading := false)
  }

  /** The form was submitted with `create` and the server answered `resp`.
      On success the form resets to `blank` and hides, then `refetch` is
      issued; on failure only `failure` is alerted and the form keeps what
      the user typed. */
  function Created<T, F>(s: Screen<T, F>, create: Request, blank: F, refetch: seq<Request>,
                         resp: Response<()>, failure: string): (o: Outcome<T, F>)
    ensures |o.sent| >= 1 && o.sent[0] == create
    ensures resp.Ok? ==> o.sent[1..] == refetch && o.alert.None?
    ensures resp.Ok? ==> o.screen == s.(showForm := false, form := blank)
    ensures resp.Failed? ==> o.sent == [create] && o.alert == Some(failure)
    ensures resp.Failed? ==> o.screen == s
  {
    if resp.Ok? then Outcome(s.(showForm := false, form := blank), [create] + refetch, None)
    else Outcome(s, [create], Some(failure))
  }

  /** A non-form mutation (delete, status change, pin toggle) answered
      `resp`: the held state never changes; `refetch` follows only a success
      and `failure` is alerted otherwise. */
  function Mutated<T, F>(s: Screen<T, F>, mutation: Request, refetch: seq<Request>,
                         resp: Response<()>, failure: string): (o: Outcome<T, F>)
    ensures o.screen == s
    ensures |o.sent| >= 1 && o.sent[0] == mutation
    ensures o.sent[1..] == (if resp.Ok? then refetch else [])
    ensures o.alert.Some? <==> resp.Failed?
    ensures resp.Failed? ==> o.alert == Some(failure)
  {
    if resp.Ok? then Outcome(s, [mutation] + refetch, None)
    else Outcome(s, [mutation], Some(failure))
  }

  /** Delete behind `window.confirm`: declining sends nothing and changes
      nothing; confirming behaves as `Mutated`. */
  function Deleted<T, F>(s: Screen<T, F>, confirmed: bool, delete: Request, refetch: seq<Request>,
                         resp: Response<()>, failure: string): (o: Outcome<T, F>)
    ensures o.screen == s
    ensures o.sent != [] <==> confirmed
    ensures !confirmed ==> o.alert.None?
    ensures confirmed ==> o == Mutated(s, delete, refetch, resp, failure)
  {
    if confirmed then Mutated(s, delete, refetch, resp, failure)
    else Outcome(s, [], None)
  }
}
