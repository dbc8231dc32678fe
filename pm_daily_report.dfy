/** The platform manager's daily report: loading it and its request table. */
module PmDailyReport {
  import opened Common
  import opened Client
  import opened Seqs
  import opened ReportFilter

  datatype DailyData = DailyData(date: string, createdTotal: int, assignedTotal: int, completedTotal: int,
                                 requests: seq<Row>)

  datatype Screen = Screen(data: Option<DailyData>, loading: bool, error: Option<string>,
                           statusFilter: string, searchTerm: string)

  function AfterFetch(s: Screen, res: Fetched<DailyData>): (u: Screen)
    ensures !u.loading
    ensures Succeeded(res) ==> u == s.(data := Some(res.body), loading := false)
    ensures !Succeeded(res) ==> u == s.(loading := false, error := Some(HttpFailure(res, "Failed to load daily report")))
  {
    if Succeeded(res) then s.(data := Some(res.body), loading := false)
    else s.(loading := false, error := Some(HttpFailure(res, "Failed to load daily report")))
  }

  /** The `filteredRequests` memo: no rows before the report has loaded;
      otherwise the requests under the status filter and the search, by
      ascending id. */
  function FilteredRequests(data: Option<DailyData>, statusFilter: string, searchTerm: string): (r: seq<Row>)
    ensures data.None? ==> r == []
    ensures data.Some? ==> forall x :: x in r <==> x in data.value.requests && Selected(x, statusFilter, searchTerm)
    ensures data.Some? ==> multiset(r) <= multiset(data.value.requests)
    ensures data.Some? ==> multiset(r) == multiset(Filter(data.value.requests, SelectedBy(statusFilter, searchTerm)))
    ensures forall i, j | 0 <= i < j < |r| :: r[i].id <= r[j].id
  {
    if data.None? then [] else StatusAndSearch(data.value.requests, statusFilter, searchTerm)
  }

  /** Before the report loads, the table is empty whatever the filters. */
  lemma NothingBeforeLoad(s: Screen, res: Fetched<DailyData>)
    requires s.data.None? && !Succeeded(res)
    ensures FilteredRequests(AfterFetch(s, res).data, s.statusFilter, s.searchTerm) == []
  {
  }
}
