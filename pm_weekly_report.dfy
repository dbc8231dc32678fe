/** The platform manager's weekly report: loading it, the request table
    restricted to the three live statuses, and the per-category rows of the
    spreadsheet export. */
module PmWeeklyReport {
  import opened Common
  import opened Seqs
  import opened Client
  import opened ReportFilter

  /** A dictionary of counts keyed by category name, in its keys' order. */
  type Counts = seq<(string, int)>

  datatype WeeklyData = WeeklyData(
    createdTotal: int, assignedTotal: int, completedTotal: int,
    createdByCategory: Counts, assignedByCategory: Counts, completedByCategory: Counts,
    requests: seq<Row>)

  datatype Screen = Screen(data: Option<WeeklyData>, loading: bool, error: Option<string>,
                           statusFilter: string, searchTerm: string)

  function AfterFetch(s: Screen, res: Fetched<WeeklyData>): (u: Screen)
    ensures !u.loading
    ensures Succeeded(res) ==> u == s.(data := Some(res.body), loading := false)
    ensures !Succeeded(res) ==> u == s.(loading := false, error := Some(HttpFailure(res, "Failed to load report")))
  {
    if Succeeded(res) then s.(data := Some(res.body), loading := false)
    else s.(loading := false, error := Some(HttpFailure(res, "Failed to load report")))
  }

  predicate Live(r: Row) {
    r.status == "pending" || r.status == "assigned" || r.status == "completed"
  }

  /** The `filteredRequests` memo: no rows before the report has loaded;
      otherwise the live requests under the status filter and the search,
      by ascending id. */
  function FilteredRequests(data: Option<WeeklyData>, statusFilter: string, searchTerm: string): (r: seq<Row>)
    ensures data.None? ==> r == []
    ensures data.Some? ==> forall x :: x in r <==> x in data.value.requests && Live(x) && Selected(x, statusFilter, searchTerm)
    ensures data.Some? ==> multiset(r) <= multiset(data.value.requests)
    ensures data.Some? ==>
              multiset(r) == multiset(Filter(Filter(data.value.requests, Live), SelectedBy(statusFilter, searchTerm)))
    ensures forall i, j | 0 <= i < j < |r| :: r[i].id <= r[j].id
  {
    if data.None? then []
    else StatusAndSearch(Filter(data.value.requests, Live), statusFilter, searchTerm)
  }

  /** Whatever the filter, the table only shows pending, assigned or
      completed requests, and a filter other than "all" only that status. */
  lemma OnlyLiveRequests(data: Option<WeeklyData>, statusFilter: string, searchTerm: string)
    ensures forall x | x in FilteredRequests(data, statusFilter, searchTerm) ::
              Live(x) && (statusFilter == "all" || x.status == statusFilter)
  {
  }

  function Keys(d: Counts): (r: seq<string>)
    ensures |r| == |d|
    ensures forall i | 0 <= i < |d| :: r[i] == d[i].0
  {
    seq(|d|, i requires 0 <= i < |d| => d[i].0)
  }

  /** The keys of `{...a, ...b}`: those of `a`, then the new ones of `b` in
      their order. */
  function MergeKeys(ks: seq<string>, more: seq<string>): (r: seq<string>)
    requires Distinct(ks)
    ensures Distinct(r)
    ensures forall k :: k in r <==> k in ks || k in more
    ensures |ks| <= |r| && r[..|ks|] == ks
    decreases |more|
  {
    if more == [] then ks
    else
      var next := if more[0] in ks then ks else ks + [more[0]];
      var r := MergeKeys(next, more[1..]);
      assert r[..|ks|] == next[..|ks|] by { assert r[..|ks|] == r[..|next|][..|ks|]; }
      assert forall k :: k in more <==> k == more[0] || k in more[1..] by {
        assert more == [more[0]] + more[1..];
      }
      r
  }

  /** The category column of the export: every key of the three dictionaries. */
  function CategoryKeys(d: WeeklyData): (r: seq<string>)
    ensures Distinct(r)
    ensures forall k :: k in r <==> k in Keys(d.createdByCategory) || k in Keys(d.assignedByCategory)
                                     || k in Keys(d.completedByCategory)
  {
    MergeKeys(MergeKeys(MergeKeys([], Keys(d.createdByCategory)), Keys(d.assignedByCategory)),
              Keys(d.completedByCategory))
  }

  /** `dict[key] || 0`: the count stored under the key, 0 when there is none. */
  function CountOf(d: Counts, key: string): (n: int)
    ensures key !in Keys(d) ==> n == 0
    ensures key in Keys(d) ==> exists i | 0 <= i < |d| :: d[i] == (key, n)
  {
    if d == [] then 0
    else if d[0].0 == key then d[0].1
    else
      var n := CountOf(d[1..], key);
      assert Keys(d) == [d[0].0] + Keys(d[1..]);
      assert key in Keys(d[1..]) ==> exists i | 0 <= i < |d| - 1 :: d[1..][i] == (key, n);
      n
  }

  datatype CategoryRow = CategoryRow(category: string, createdCount: int, assignedCount: int, completedCount: int)

  function RowFor(d: WeeklyData, key: string): CategoryRow {
    CategoryRow(key, CountOf(d.createdByCategory, key), CountOf(d.assignedByCategory, key),
                CountOf(d.completedByCategory, key))
  }

  /** The "By Category" sheet: one row per category key, each count taken
      from its dictionary, a missing count as 0. */
  function CategoryRows(d: WeeklyData): (r: seq<CategoryRow>)
    ensures var ks := CategoryKeys(d);
            && |r| == |ks|
            && forall i | 0 <= i < |r| :: r[i] == RowFor(d, ks[i])
  {
    var ks := CategoryKeys(d);
    seq(|ks|, i requires 0 <= i < |ks| => RowFor(d, ks[i]))
  }

  /** Each category of any of the three dictionaries has exactly one row,
      and no other row exists. */
  lemma EachCategoryOnce(d: WeeklyData, key: string)
    ensures (exists i | 0 <= i < |CategoryRows(d)| :: CategoryRows(d)[i].category == key)
            <==> key in Keys(d.createdByCategory) || key in Keys(d.assignedByCategory) || key in Keys(d.completedByCategory)
    ensures forall i, j | 0 <= i < j < |CategoryRows(d)| :: CategoryRows(d)[i].category != CategoryRows(d)[j].category
  {
    var ks := CategoryKeys(d);
    var rows := CategoryRows(d);
    if key in ks {
      var i :| 0 <= i < |ks| && ks[i] == key;
      assert rows[i].category == key;
    }
  }

  /** A category absent from the completed dictionary shows 0 completed. */
  lemma MissingCountIsZero(d: WeeklyData, i: int)
    requires 0 <= i < |CategoryRows(d)|
    requires CategoryRows(d)[i].category !in Keys(d.completedByCategory)
    ensures CategoryRows(d)[i].completedCount == 0
  {
  }
}
