/** The request table shared by the platform manager's daily, weekly and
    monthly reports: the status filter, the search on title or category, and
    the order by id. */
module ReportFilter {
  import opened Common
  import opened Seqs

  /** A request row of a report (the timestamps are only displayed). */
  datatype Row = Row(id: int, title: string, status: string, category: string)

  function HasStatus(status: string): Row -> bool {
    (r: Row) => r.status == status
  }

  /** The search test for the already lower-cased term `q`. */
  predicate Matches(r: Row, q: string) {
    Contains(Lower(r.title), q) || Contains(Lower(r.category), q)
  }

  function MatchesTerm(q: string): Row -> bool {
    (r: Row) => Matches(r, q)
  }

  function RowId(r: Row): int { r.id }

  /** Keeps `r` under the status filter and the search term, where only the
      emptiness test trims the term: matching uses it untrimmed. */
  predicate Selected(r: Row, statusFilter: string, searchTerm: string) {
    && (statusFilter == "all" || r.status == statusFilter)
    && (IsBlank(searchTerm) || Matches(r, Lower(searchTerm)))
  }

  function SelectedBy(statusFilter: string, searchTerm: string): Row -> bool {
    (r: Row) => Selected(r, statusFilter, searchTerm)
  }

  /** The status filter, then the search filter when the term is not blank:
      together one filter by `Selected`, which keeps every selected row as
      often as it occurs. */
  function Selection(rows: seq<Row>, statusFilter: string, searchTerm: string): (r: seq<Row>)
    ensures r == Filter(rows, SelectedBy(statusFilter, searchTerm))
  {
    var byStatus := if statusFilter != "all" then Filter(rows, HasStatus(statusFilter)) else rows;
    var bySearch := if IsBlank(searchTerm) then byStatus else Filter(byStatus, MatchesTerm(Lower(searchTerm)));
    if statusFilter == "all" && IsBlank(searchTerm) then
      FilterAll(rows, SelectedBy(statusFilter, searchTerm));
      bySearch
    else if IsBlank(searchTerm) then
      FilterSameOn(rows, HasStatus(statusFilter), SelectedBy(statusFilter, searchTerm));
      bySearch
    else if statusFilter == "all" then
      FilterSameOn(rows, MatchesTerm(Lower(searchTerm)), SelectedBy(statusFilter, searchTerm));
      bySearch
    else
      StatusThenSearch(rows, statusFilter, searchTerm);
      bySearch
  }

  /** Both filters at once are one filter by `Selected`. */
  lemma {:induction false} StatusThenSearch(rows: seq<Row>, statusFilter: string, searchTerm: string)
    requires statusFilter != "all" && !IsBlank(searchTerm)
    ensures Filter(Filter(rows, HasStatus(statusFilter)), MatchesTerm(Lower(searchTerm)))
            == Filter(rows, SelectedBy(statusFilter, searchTerm))
  {
    if rows != [] {
      StatusThenSearch(rows[1..], statusFilter, searchTerm);
      var byStatus := Filter(rows, HasStatus(statusFilter));
      if rows[0].status == statusFilter {
        assert byStatus == [rows[0]] + Filter(rows[1..], HasStatus(statusFilter));
        assert byStatus[1..] == Filter(rows[1..], HasStatus(statusFilter));
      }
    }
  }

  /** The filters and the ascending sort by id of a report's `filteredRequests`. */
  function StatusAndSearch(rows: seq<Row>, statusFilter: string, searchTerm: string): (r: seq<Row>)
    ensures forall x :: x in r <==> x in rows && Selected(x, statusFilter, searchTerm)
    ensures multiset(r) == multiset(Filter(rows, SelectedBy(statusFilter, searchTerm)))
    ensures multiset(r) <= multiset(rows)
    ensures forall i, j | 0 <= i < j < |r| :: r[i].id <= r[j].id
  {
    var bySearch := Selection(rows, statusFilter, searchTerm);
    SortByKeepsElements(bySearch, RowId);
    SortBy(bySearch, RowId)
  }

  /** With no filter and a blank term, the table holds all the rows. */
  lemma NoFilterKeepsAll(rows: seq<Row>, searchTerm: string)
    requires IsBlank(searchTerm)
    ensures multiset(StatusAndSearch(rows, "all", searchTerm)) == multiset(rows)
  {
  }

  /** A status filter other than "all" leaves only rows with that status. */
  lemma OnlyThatStatus(rows: seq<Row>, statusFilter: string, searchTerm: string)
    requires statusFilter != "all"
    ensures forall x | x in StatusAndSearch(rows, statusFilter, searchTerm) :: x.status == statusFilter
  {
  }

  /** Trailing blanks in the term change what matches: the term is lower-cased
      but not trimmed before the search. */
  lemma UntrimmedTermMatchesLess(row: Row)
    requires row == Row(1, "Food", "pending", "Aid")
    ensures !IsBlank("food ")
    ensures StatusAndSearch([row], "all", "food") == [row]
    ensures StatusAndSearch([row], "all", "food ") == []
  {
    assert !IsBlank("food ") by { assert !IsSpace("food "[0]); }
    assert Lower("food") == "food" && Lower("food ") == "food ";
    assert Lower(row.title) == "food" && Lower(row.category) == "aid";
    assert OccursAt("food", "food", 0);
    assert Matches(row, "food");
    assert Filter([row], MatchesTerm("food")) == [row];
    assert !Matches(row, "food ") by {
      assert !Contains("food", "food ") && !Contains("aid", "food ");
    }
    assert Filter([row], MatchesTerm("food ")) == [];
    assert SortBy([row], RowId) == [row];
  }
}
