/** The CSR's completed-requests history: paginated loading with the
    search, service and completion-date filters in the URL, the client-side
    text filter, and the order by completion time. */
module CsrCompleted {
  import opened Common
  import opened Seqs
  import opened Client

  const PageSize := 24

  datatype Done = Done(
    id: int, title: string, description: Option<string>, status: string,
    completedAt: Option<int>, serviceType: Option<string>)

  datatype Screen = Screen(
    requests: seq<Done>, loading: bool, error: Option<string>, query: string,
    service: string, startDate: string, endDate: string, offset: int, hasMore: bool)

  /** The query string of the listing call. */
  datatype ListQuery = ListQuery(
    limit: int, offset: int, status: string, q: Option<string>,
    serviceType: Option<string>, completedAfter: Option<string>, completedBefore: Option<string>)

  /** `buildUrl`: paging and the status always; the other filters only when set. */
  function BuildUrl(s: Screen, reset: bool): (u: ListQuery)
    ensures u.limit == PageSize && u.offset == (if reset then 0 else s.offset) && u.status == "completed"
    ensures u.q.None? <==> IsBlank(s.query)
    ensures u.q.Some? ==> u.q.value == Strip(s.query)
    ensures u.serviceType.None? <==> s.service == [] || s.service == "all"
    ensures u.serviceType.Some? ==> u.serviceType.value == s.service
    ensures u.completedAfter == (if s.startDate == [] then None else Some(s.startDate))
    ensures u.completedBefore == (if s.endDate == [] then None else Some(s.endDate))
  {
    ListQuery(PageSize, if reset then 0 else s.offset, "completed",
              if IsBlank(s.query) then None else Some(Strip(s.query)),
              if s.service == [] || s.service == "all" then None else Some(s.service),
              if s.startDate == [] then None else Some(s.startDate),
              if s.endDate == [] then None else Some(s.endDate))
  }

  function AfterFetchPage(s: Screen, reset: bool, res: Fetched<ListReply<Done>>): (u: Screen)
    ensures !u.loading
    ensures !Succeeded(res) ==> u == s.(loading := false, error := Some(TextFailure(res, "Failed to load completed requests")))
    ensures Succeeded(res) ==>
              var page := ItemsOrEmpty(res.body);
              u == s.(requests := if reset then page else s.requests + page,
                      offset := if reset then |page| else s.offset + |page|,
                      hasMore := |page| == PageSize, loading := false, error := None)
  {
    if !Succeeded(res) then s.(loading := false, error := Some(TextFailure(res, "Failed to load completed requests")))
    else
      var page := ItemsOrEmpty(res.body);
      s.(requests := if reset then page else s.requests + page,
         offset := if reset then |page| else s.offset + |page|,
         hasMore := |page| == PageSize, loading := false, error := None)
  }

  /** The offset always counts the loaded records, so pages are requested
      one after the other without gaps or overlaps. */
  lemma {:induction false} OffsetCountsLoaded(s: Screen, reset: bool, res: Fetched<ListReply<Done>>)
    requires s.offset == |s.requests|
    ensures var u := AfterFetchPage(s, reset, res);
            && u.offset == |u.requests|
            && BuildUrl(u, false).offset == |u.requests|
            && (Succeeded(res) && !reset ==> u.requests[..|s.requests|] == s.requests)
  {
  }

  /** The text filter for the lower-cased, trimmed query `q`. */
  predicate Matches(r: Done, q: string) {
    q == [] || Contains(Lower(r.title), q)
    || (r.description.Some? && Contains(Lower(r.description.value), q))
    || Contains(IntToString(r.id), q)
  }

  function MatchesQuery(q: string): Done -> bool {
    (r: Done) => Matches(r, q)
  }

  /** The `filtered` memo. */
  function Filtered(requests: seq<Done>, query: string): (r: seq<Done>)
    ensures forall x :: x in r <==> x in requests && Matches(x, Lower(Strip(query)))
    ensures multiset(r) <= multiset(requests)
  {
    Filter(requests, MatchesQuery(Lower(Strip(query))))
  }

  /** A blank query keeps every record in order. */
  lemma BlankQueryKeepsAll(requests: seq<Done>, query: string)
    requires IsBlank(query)
    ensures Filtered(requests, query) == requests
  {
    assert Lower(Strip(query)) == [];
    FilterAll(requests, MatchesQuery([]));
  }

  /** Every record matches its own id. */
  lemma IdAlwaysMatches(r: Done)
    ensures Matches(r, IntToString(r.id))
  {
    assert OccursAt(IntToString(r.id), IntToString(r.id), 0);
  }

  function CompletedTime(r: Done): int {
    TimeOrZero(r.completedAt)
  }

  /** The `sorted` memo: latest completion first, a missing time as 0. */
  function Sorted(filtered: seq<Done>): (r: seq<Done>)
    ensures multiset(r) == multiset(filtered)
    ensures forall i, j | 0 <= i < j < |r| :: TimeOrZero(r[i].completedAt) >= TimeOrZero(r[j].completedAt)
  {
    NewestFirst(filtered, CompletedTime)
  }

  class Page {
    var requests: seq<Done>
    var loading: bool
    var error: Option<string>
    var query: string
    var service: string
    var startDate: string
    var endDate: string
    var offset: int
    var hasMore: bool

    function State(): Screen
      reads this
    {
      Screen(requests, loading, error, query, service, startDate, endDate, offset, hasMore)
    }

    constructor ()
      ensures State() == Screen([], false, None, "", "", "", "", 0, true)
    {
      requests, loading, error := [], false, None;
      query, service, startDate, endDate := "", "", "", "";
      offset, hasMore := 0, true;
    }

    method FetchPage(reset: bool, res: Fetched<ListReply<Done>>) returns (url: ListQuery)
      modifies this
      ensures url == BuildUrl(old(State()), reset)
      ensures State() == AfterFetchPage(old(State()), reset, res)
    {
      loading, error := true, None;
      url := BuildUrl(State(), reset);
      if !Succeeded(res) {
        loading, error := false, Some(TextFailure(res, "Failed to load completed requests"));
        return;
      }
      var list := ItemsOrEmpty(res.body);
      if reset {
        requests, offset := list, |list|;
      } else {
        requests, offset := requests + list, offset + |list|;
      }
      hasMore, loading := |list| == PageSize, false;
    }

    /** Choosing a service type; the effect on `service` reloads from the
        first page when the value changed and nothing is loading. */
    method SetService(value: string) returns (refetch: bool)
      modifies this
      ensures State() == old(State()).(service := value)
      ensures refetch <==> value != old(service) && !loading
    {
      refetch := value != service && !loading;
      service := value;
    }
  }
}
