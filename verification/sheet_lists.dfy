/** The two lists a sheets view holds: the fetched collection split by the
    `isPinned` flag into the pinned and the other sheets. */
module SheetLists {
  import opened Records
  import opened Api
  import opened Seqs

  datatype Lists = Lists(pinned: seq<Sheet>, unpinned: seq<Sheet>)

  const NoSheets: Lists := Lists([], [])

  function IsPinned(s: Sheet): bool {
    s.isPinned
  }

  /** `allSheets.filter(s => s.isPinned)` and its complement. */
  function Split(all: seq<Sheet>): (r: Lists)
    ensures forall i :: 0 <= i < |r.pinned| ==> r.pinned[i].isPinned
    ensures forall i :: 0 <= i < |r.unpinned| ==> !r.unpinned[i].isPinned
    ensures Interleaves(all, r.pinned, r.unpinned)
    ensures multiset(r.pinned) + multiset(r.unpinned) == multiset(all)
    ensures |r.pinned| + |r.unpinned| == |all|
  {
    var r := Lists(Filter(all, IsPinned), Filter(all, Not(IsPinned)));
    FilterSplitInterleaves(all, IsPinned);
    InterleavesMultiset(all, r.pinned, r.unpinned);
    r
  }

  /** The split is the only order-preserving way to separate pinned from
      unpinned sheets. */
  lemma SplitUnique(all: seq<Sheet>, l: Lists)
    requires Interleaves(all, l.pinned, l.unpinned)
    requires forall s :: s in l.pinned ==> s.isPinned
    requires forall s :: s in l.unpinned ==> !s.isPinned
    ensures l == Split(all)
  {
    SplitIsFilter(all, l.pinned, l.unpinned, IsPinned);
  }

  /** A fetch settled: a success replaces both lists, a failure is only
      logged and keeps them. */
  function Fetched(l: Lists, resp: Response<seq<Sheet>>): (r: Lists)
    ensures resp.Ok? ==> |r.pinned| + |r.unpinned| == |resp.value|
    ensures resp.Ok? ==> multiset(r.pinned) + multiset(r.unpinned) == multiset(resp.value)
    ensures resp.Ok? ==> r == Split(resp.value)
    ensures resp.Failed? ==> r == l
  {
    if resp.Ok? then Split(resp.value) else l
  }

  /** A sheet mutation (create, pin toggle, delete) is followed by a fresh
      fetch of all sheets only when it succeeds. */
  function Mutation(req: Request, resp: Response<()>): (sent: seq<Request>)
    ensures |sent| >= 1 && sent[0] == req
    ensures GetAll(SheetsApi) in sent[1..] <==> resp.Ok?
    ensures resp.Ok? ==> sent == [req, GetAll(SheetsApi)]
    ensures resp.Failed? ==> sent == [req]
  {
    if resp.Ok? then [req, GetAll(SheetsApi)] else [req]
  }
}
