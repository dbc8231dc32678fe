/** The platform manager's monthly report: loading it, with demonstration
    data in place of any failed load, and its request table. */
module PmMonthlyReport {
  import opened Common
  import opened Client
  import opened Seqs
  import opened ReportFilter

  /** A dictionary of counts keyed by category name, in its keys' order. */
  type Counts = seq<(string, int)>

  datatype WeekRow = WeekRow(week: int, created: int, completed: int)

  datatype Shortlisted = Shortlisted(id: int, title: string, shortlistCount: int)

  /** The report; the rate, average time and growth (floating point in the
      page) are left out. */
  datatype MonthlyData = MonthlyData(
    month: string, createdTotal: int, completedTotal: int, activeCategories: int,
    byWeek: seq<WeekRow>, byCategory: Counts, topShortlisted: seq<Shortlisted>, requests: seq<Row>)

  /** The demonstration report shown when loading fails. */
  const MockData := MonthlyData(
    "2025-10", 120, 105, 6,
    [WeekRow(43, 25, 20), WeekRow(44, 30, 27)],
    [("Case & Social Support", 40), ("Financial Aid", 30), ("Medical", 25), ("Food Assistance", 15), ("Education", 10)],
    [Shortlisted(1, "Medical Aid Request", 8), Shortlisted(2, "Education Support", 6),
     Shortlisted(3, "Food Voucher Program", 5), Shortlisted(4, "Financial Counseling", 4),
     Shortlisted(5, "Case Management", 3)],
    [])

  datatype Screen = Screen(data: Option<MonthlyData>, loading: bool, error: Option<string>,
                           statusFilter: string, searchTerm: string)

  /** The load never sets `error`: a failure shows the demonstration data. */
  function AfterFetch(s: Screen, res: Fetched<MonthlyData>): (u: Screen)
    ensures !u.loading && u.error == s.error && u.data.Some?
    ensures Succeeded(res) ==> u == s.(data := Some(res.body), loading := false)
    ensures !Succeeded(res) ==> u == s.(data := Some(MockData), loading := false)
  {
    if Succeeded(res) then s.(data := Some(res.body), loading := false)
    else s.(data := Some(MockData), loading := false)
  }

  /** The `filteredRequests` memo, as in the daily report. */
  function FilteredRequests(data: Option<MonthlyData>, statusFilter: string, searchTerm: string): (r: seq<Row>)
    ensures data.None? ==> r == []
    ensures data.Some? ==> forall x :: x in r <==> x in data.value.requests && Selected(x, statusFilter, searchTerm)
    ensures data.Some? ==> multiset(r) <= multiset(data.value.requests)
    ensures data.Some? ==> multiset(r) == multiset(Filter(data.value.requests, SelectedBy(statusFilter, searchTerm)))
    ensures forall i, j | 0 <= i < j < |r| :: r[i].id <= r[j].id
  {
    if data.None? then [] else StatusAndSearch(data.value.requests, statusFilter, searchTerm)
  }

  /** After a failed load the page shows no error and an empty table. */
  lemma FailedLoadShowsEmptyTable(s: Screen, res: Fetched<MonthlyData>)
    requires s.error.None? && !Succeeded(res)
    ensures AfterFetch(s, res).error.None?
    ensures FilteredRequests(AfterFetch(s, res).data, s.statusFilter, s.searchTerm) == []
  {
  }
}
