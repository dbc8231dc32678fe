/** The integer parts of the manager's reports: the weekly activity counters
    with their per-category tallies, and the calendar arithmetic the monthly
    report uses to find the first days of the next and the previous month.
    Timestamps are seconds; the clock is the parameter `now`. */
module RequestReports {
  import opened Common
  import opened Seqs
  import opened Models

  const SecondsPerDay := 86400

  /** A request of the weekly query with its category's name, or
      "Uncategorized" when it has none. */
  datatype Activity = Activity(id: int, r: Request, category: string)

  function CategoryOrUncategorized(t: Tables, r: Request): string {
    if r.categoryId.Some? && r.categoryId.value in t.categories
    then t.categories[r.categoryId.value].name else "Uncategorized"
  }

  /** Created, updated or completed at or after `weekAgo`. */
  predicate ActiveSince(r: Request, weekAgo: int) {
    r.createdAt >= weekAgo || r.updatedAt >= weekAgo
    || (r.completedAt.Some? && r.completedAt.value >= weekAgo)
  }

  /** The rows of the weekly query, in id order. */
  function WeeklyRows(t: Tables, weekAgo: int): (rows: seq<Activity>)
    requires Consistent(t)
    ensures forall a | a in rows :: a.id in t.requests && a.r == t.requests[a.id]
                                    && ActiveSince(a.r, weekAgo)
                                    && a.category == CategoryOrUncategorized(t, a.r)
    ensures forall k | k in t.requests && ActiveSince(t.requests[k], weekAgo) ::
              exists a | a in rows :: a.id == k
    ensures forall i, j | 0 <= i < j < |rows| :: rows[i].id < rows[j].id
  {
    var all := IdsUpTo(t.requests.Keys, t.nextRequestId);
    var active := k => k in t.requests && ActiveSince(t.requests[k], weekAgo);
    var ids := Filter(all, active);
    FilterIncreasing(all, active, (k: int) => k);
    var rows := ActivitiesOf(t, ids);
    ActivitiesListed(t, weekAgo, ids, rows);
    rows
  }

  function ActivitiesOf(t: Tables, ids: seq<int>): (rows: seq<Activity>)
    requires forall i | 0 <= i < |ids| :: ids[i] in t.requests
    ensures |rows| == |ids|
    ensures forall i | 0 <= i < |ids| ::
              rows[i] == Activity(ids[i], t.requests[ids[i]], CategoryOrUncategorized(t, t.requests[ids[i]]))
  {
    seq(|ids|, i requires 0 <= i < |ids| =>
      Activity(ids[i], t.requests[ids[i]], CategoryOrUncategorized(t, t.requests[ids[i]])))
  }

  lemma ActivitiesListed(t: Tables, weekAgo: int, ids: seq<int>, rows: seq<Activity>)
    requires forall k :: k in ids <==> k in t.requests && ActiveSince(t.requests[k], weekAgo)
    requires |rows| == |ids|
    requires forall i | 0 <= i < |ids| :: ids[i] in t.requests
    requires forall i | 0 <= i < |ids| ::
               rows[i] == Activity(ids[i], t.requests[ids[i]], CategoryOrUncategorized(t, t.requests[ids[i]]))
    ensures forall a | a in rows :: a.id in t.requests && a.r == t.requests[a.id]
                                    && ActiveSince(a.r, weekAgo)
                                    && a.category == CategoryOrUncategorized(t, a.r)
    ensures forall k | k in t.requests && ActiveSince(t.requests[k], weekAgo) ::
              exists a | a in rows :: a.id == k
  {
    forall a | a in rows
      ensures a.id in t.requests && a.r == t.requests[a.id] && ActiveSince(a.r, weekAgo)
    {
      var i :| 0 <= i < |rows| && rows[i] == a;
      assert ids[i] in ids;
    }
    forall k | k in t.requests && ActiveSince(t.requests[k], weekAgo)
      ensures exists a | a in rows :: a.id == k
    {
      var i :| 0 <= i < |ids| && ids[i] == k;
      assert rows[i].id == k;
    }
  }

  predicate CreatedSince(a: Activity, weekAgo: int) { a.r.createdAt >= weekAgo }

  predicate AssignedSince(a: Activity, weekAgo: int) {
    a.r.status == Assigned && a.r.updatedAt >= weekAgo
  }

  predicate CompletedSince(a: Activity, weekAgo: int) {
    a.r.status == Completed && a.r.completedAt.Some? && a.r.completedAt.value >= weekAgo
  }

  function Names(s: seq<Activity>): (r: seq<string>)
    ensures |r| == |s|
    ensures forall i | 0 <= i < |s| :: r[i] == s[i].category
  {
    seq(|s|, i requires 0 <= i < |s| => s[i].category)
  }

  lemma NamesOfSub(sub: seq<Activity>, s: seq<Activity>)
    requires forall a | a in sub :: a in s
    ensures forall n | n in Names(sub) :: n in Names(s)
  {
    forall n | n in Names(sub) ensures n in Names(s) {
      var i :| 0 <= i < |sub| && Names(sub)[i] == n;
      assert sub[i] in sub;
      var j :| 0 <= j < |s| && s[j] == sub[i];
      assert Names(s)[j] == n;
    }
  }

  datatype Weekly = Weekly(
    total: nat, createdCount: nat, assignedCount: nat, completedCount: nat,
    categories: map<string, nat>,
    createdByCategory: map<string, nat>,
    assignedByCategory: map<string, nat>,
    completedByCategory: map<string, nat>)

  /** The counters of a weekly report over `rows`. */
  function Counters(rows: seq<Activity>, weekAgo: int): Weekly {
    var createdRows := Filter(rows, a => CreatedSince(a, weekAgo));
    var assignedRows := Filter(rows, a => AssignedSince(a, weekAgo));
    var completedRows := Filter(rows, a => CompletedSince(a, weekAgo));
    Weekly(|rows|, |createdRows|, |assignedRows|, |completedRows|,
           Tally(Names(rows)), Tally(Names(createdRows)), Tally(Names(assignedRows)), Tally(Names(completedRows)))
  }

  /** `generate_weekly_report`'s counters, with the early return for a week
      without activity. */
  function WeeklyReport(t: Tables, now: int): (w: Weekly)
    requires Consistent(t)
    ensures w == Counters(WeeklyRows(t, now - 7 * SecondsPerDay), now - 7 * SecondsPerDay)
  {
    var weekAgo := now - 7 * SecondsPerDay;
    var rows := WeeklyRows(t, weekAgo);
    if rows == [] then
      assert Names([]) == [];
      Weekly(0, 0, 0, 0, map[], map[], map[], map[])
    else Counters(rows, weekAgo)
  }

  /** Each tally adds up to its list's length, each sub-list's categories
      occur among all categories, and a request counts as assigned or as
      completed but not both. */
  lemma {:induction false} CountersAddUp(rows: seq<Activity>, weekAgo: int)
    ensures var w := Counters(rows, weekAgo);
            && MapSum(w.categories) == w.total
            && MapSum(w.createdByCategory) == w.createdCount
            && MapSum(w.assignedByCategory) == w.assignedCount
            && MapSum(w.completedByCategory) == w.completedCount
            && w.createdCount <= w.total
            && w.assignedCount + w.completedCount <= w.total
            && w.createdByCategory.Keys <= w.categories.Keys
            && w.assignedByCategory.Keys <= w.categories.Keys
            && w.completedByCategory.Keys <= w.categories.Keys
  {
    var createdRows := Filter(rows, a => CreatedSince(a, weekAgo));
    var assignedRows := Filter(rows, a => AssignedSince(a, weekAgo));
    var completedRows := Filter(rows, a => CompletedSince(a, weekAgo));
    TallySum(Names(rows));
    TallySum(Names(createdRows));
    TallySum(Names(assignedRows));
    TallySum(Names(completedRows));
    NamesOfSub(createdRows, rows);
    NamesOfSub(assignedRows, rows);
    NamesOfSub(completedRows, rows);
    CountDisjointUnion(rows, a => AssignedSince(a, weekAgo), a => CompletedSince(a, weekAgo));
  }

  /** Every request a tally counts for a category has that category. */
  lemma TallyCountsCategory(rows: seq<Activity>, weekAgo: int, name: string)
    requires name in Names(rows)
    ensures Counters(rows, weekAgo).categories[name] == multiset(Names(rows))[name]
  {
    TallyCounts(Names(rows), name);
  }

  // ---------------------------------------------------------------------
  // Month rollover
  // ---------------------------------------------------------------------

  /** Months counted from year 0. */
  function MonthIndex(year: int, month: int): int {
    year * 12 + (month - 1)
  }

  function NextMonth(year: int, month: int): (r: (int, int))
    requires 1 <= month <= 12
    ensures 1 <= r.1 <= 12
    ensures MonthIndex(r.0, r.1) == MonthIndex(year, month) + 1
  {
    if month == 12 then (year + 1, 1) else (year, month + 1)
  }

  function PrevMonth(year: int, month: int): (r: (int, int))
    requires 1 <= month <= 12
    ensures 1 <= r.1 <= 12
    ensures MonthIndex(r.0, r.1) == MonthIndex(year, month) - 1
  {
    if month == 1 then (year - 1, 12) else (year, month - 1)
  }

  /** A (year, month) with a month in range is fixed by its index. */
  lemma MonthIndexInjective(y1: int, m1: int, y2: int, m2: int)
    requires 1 <= m1 <= 12 && 1 <= m2 <= 12
    requires MonthIndex(y1, m1) == MonthIndex(y2, m2)
    ensures y1 == y2 && m1 == m2
  {
  }

  /** The previous month of the next month is the month itself, and the
      other way round. */
  lemma NextPrevInverse(year: int, month: int)
    requires 1 <= month <= 12
    ensures PrevMonth(NextMonth(year, month).0, NextMonth(year, month).1) == (year, month)
    ensures NextMonth(PrevMonth(year, month).0, PrevMonth(year, month).1) == (year, month)
  {
    var n := NextMonth(year, month);
    var p := PrevMonth(n.0, n.1);
    MonthIndexInjective(p.0, p.1, year, month);
    var q := PrevMonth(year, month);
    var m := NextMonth(q.0, q.1);
    MonthIndexInjective(m.0, m.1, year, month);
  }
}
