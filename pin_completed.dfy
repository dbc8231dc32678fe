/** The PIN's completed-requests history: the service categories, the full
    listing, the search with its filter body, the reset, and the order by
    completion time. */
module PinCompleted {
  import opened Common
  import opened Seqs
  import opened Client

  datatype Done = Done(id: int, title: string, status: string, completedAt: Option<int>, serviceType: Option<string>)

  datatype CategoryItem = CategoryItem(id: int, name: string)

  datatype Screen = Screen(
    requests: seq<Done>, categories: seq<CategoryItem>, loading: bool, error: Option<string>,
    loadingCategories: bool, query: string, service: string, startDate: string, endDate: string)

  /** `fetchCategories`: a non-array reply becomes []; any failure sets the
      fixed message and keeps the old categories. */
  function AfterCategories(s: Screen, res: Fetched<Option<seq<CategoryItem>>>): (u: Screen)
    ensures !u.loadingCategories
    ensures Succeeded(res) ==> u == s.(categories := ListOrEmpty(res.body), loadingCategories := false)
    ensures !Succeeded(res) ==>
              u == s.(error := Some("Failed to load service categories"), loadingCategories := false)
  {
    if Succeeded(res) then s.(categories := ListOrEmpty(res.body), loadingCategories := false)
    else s.(error := Some("Failed to load service categories"), loadingCategories := false)
  }

  /** The end of `fetchAllCompletedRequests` and of `handleSearch`: the
      list on success (a non-array reply becomes []), else the message. */
  function AfterList(s: Screen, res: Fetched<Option<seq<Done>>>, fallback: string): (u: Screen)
    ensures !u.loading
    ensures Succeeded(res) ==> u == s.(requests := ListOrEmpty(res.body), loading := false, error := None)
    ensures !Succeeded(res) ==> u == s.(loading := false, error := Some(TextFailure(res, fallback)))
  {
    if Succeeded(res) then s.(requests := ListOrEmpty(res.body), loading := false, error := None)
    else s.(loading := false, error := Some(TextFailure(res, fallback)))
  }

  /** The POST body of a search. */
  datatype SearchBody = SearchBody(
    searchInput: string, serviceType: Option<string>,
    completedAfter: Option<string>, completedBefore: Option<string>)

  function SearchBodyOf(s: Screen): (b: SearchBody)
    ensures b.searchInput == Strip(s.query)
    ensures b.serviceType.None? <==> s.service == "all"
    ensures b.serviceType.Some? ==> b.serviceType.value == s.service
    ensures b.completedAfter.None? <==> s.startDate == []
    ensures b.completedAfter.Some? ==> b.completedAfter.value == s.startDate
    ensures b.completedBefore.None? <==> s.endDate == []
    ensures b.completedBefore.Some? ==> b.completedBefore.value == s.endDate
  {
    SearchBody(Strip(s.query), if s.service == "all" then None else Some(s.service),
               if s.startDate == [] then None else Some(s.startDate),
               if s.endDate == [] then None else Some(s.endDate))
  }

  /** The filters `handleReset` restores. */
  function Cleared(s: Screen): Screen {
    s.(query := "", service := "all", startDate := "", endDate := "")
  }

  /** After a reset, a search sends no filter at all. */
  lemma ResetClearsTheSearch(s: Screen)
    ensures SearchBodyOf(Cleared(s)) == SearchBody("", None, None, None)
  {
    assert IsBlank("");
  }

  function CompletedTime(r: Done): int {
    TimeOrZero(r.completedAt)
  }

  /** The `sorted` memo: latest completion first, a missing time as 0. */
  function Sorted(requests: seq<Done>): (r: seq<Done>)
    ensures multiset(r) == multiset(requests)
    ensures forall i, j | 0 <= i < j < |r| :: TimeOrZero(r[i].completedAt) >= TimeOrZero(r[j].completedAt)
  {
    NewestFirst(requests, CompletedTime)
  }

  class Page {
    var requests: seq<Done>
    var categories: seq<CategoryItem>
    var loading: bool
    var error: Option<string>
    var loadingCategories: bool
    var query: string
    var service: string
    var startDate: string
    var endDate: string

    function State(): Screen
      reads this
    {
      Screen(requests, categories, loading, error, loadingCategories, query, service, startDate, endDate)
    }

    constructor ()
      ensures State() == Screen([], [], false, None, false, "", "all", "", "")
    {
      requests, categories, loading, error, loadingCategories := [], [], false, None, false;
      query, service, startDate, endDate := "", "all", "", "";
    }

    method FetchCategories(res: Fetched<Option<seq<CategoryItem>>>)
      modifies this`loadingCategories, this`categories, this`error
      ensures State() == AfterCategories(old(State()), res)
    {
      loadingCategories := true;
      if Succeeded(res) {
        categories := ListOrEmpty(res.body);
      } else {
        error := Some("Failed to load service categories");
      }
      loadingCategories := false;
    }

    method FetchAllCompletedRequests(res: Fetched<Option<seq<Done>>>)
      modifies this`requests, this`loading, this`error
      ensures State() == AfterList(old(State()), res, "Failed to load completed requests")
    {
      loading, error := true, None;
      if Succeeded(res) {
        requests := ListOrEmpty(res.body);
      } else {
        error := Some(TextFailure(res, "Failed to load completed requests"));
      }
      loading := false;
    }

    method HandleSearch(res: Fetched<Option<seq<Done>>>) returns (body: SearchBody)
      modifies this`requests, this`loading, this`error
      ensures body == SearchBodyOf(old(State()))
      ensures State() == AfterList(old(State()), res, "Search failed")
    {
      var filters := State();
      loading, error := true, None;
      if Succeeded(res) {
        requests := ListOrEmpty(res.body);
      } else {
        error := Some(TextFailure(res, "Search failed"));
      }
      loading := false;
      assert State() == AfterList(filters, res, "Search failed");
      // The body is built from the filters as they were when the search began.
      body := SearchBodyOf(filters);
    }

    /** `handleReset`: the filters go back to their initial values, then the
        full listing is loaded. */
    method HandleReset(res: Fetched<Option<seq<Done>>>)
      modifies this
      ensures State() == AfterList(Cleared(old(State())), res, "Failed to load completed requests")
    {
      query, service, startDate, endDate := "", "all", "", "";
      FetchAllCompletedRequests(res);
    }
  }
}
