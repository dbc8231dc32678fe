/** The PIN dashboard: the PIN's own requests, their status totals, the
    status filter and the newest-first order, deletion, the edit dialog's
    save, and the search. The component is the class Dashboard; the pure
    functions give each handler's effect on its state. */
module PinDashboard {
  import opened Common
  import opened Seqs
  import opened Client

  datatype PinCard = PinCard(
    id: int, title: string, description: Option<string>, status: string,
    createdAt: Option<int>, categoryId: Option<int>)

  /** The status select: "all" or one status. */
  datatype StatusFilter = All | Only(status: string)

  /** The PIN whose requests are shown: the `pin_user_id` query parameter
      when it is non-empty, else the stored user's `pin_user_id` when it is
      truthy, written in decimal. */
  function ResolvePinId(param: Option<string>, stored: Option<int>): (r: Option<string>)
    ensures param.Some? && param.value != [] ==> r == param
    ensures !(param.Some? && param.value != []) && IntTruthy(stored) ==> r == Some(IntToString(stored.value))
    ensures !(param.Some? && param.value != []) && !IntTruthy(stored) ==> r.None?
    ensures r.Some? ==> r.value != []
  {
    if param.Some? && param.value != [] then param
    else if IntTruthy(stored) then Some(IntToString(stored.value))
    else None
  }

  // ---------------------------------------------------------------------
  // totals, filtered, sorted
  // ---------------------------------------------------------------------

  predicate IsPending(c: PinCard) { c.status == "pending" }
  predicate IsAssigned(c: PinCard) { c.status == "assigned" }
  predicate IsCompleted(c: PinCard) { c.status == "completed" }
  predicate IsOpen(c: PinCard) { c.status == "pending" || c.status == "assigned" }
  predicate IsKnown(c: PinCard) { IsOpen(c) || IsCompleted(c) }

  datatype Totals = Totals(total: nat, pending: nat, assignedCount: nat, completed: nat, active: nat, past: nat)

  lemma CountStep(requests: seq<PinCard>, i: nat)
    requires i < |requests|
    ensures Count(requests[..i + 1], IsPending) == Count(requests[..i], IsPending) + (if IsPending(requests[i]) then 1 else 0)
    ensures Count(requests[..i + 1], IsAssigned) == Count(requests[..i], IsAssigned) + (if IsAssigned(requests[i]) then 1 else 0)
    ensures Count(requests[..i + 1], IsCompleted) == Count(requests[..i], IsCompleted) + (if IsCompleted(requests[i]) then 1 else 0)
  {
    assert requests[..i + 1] == requests[..i] + [requests[i]];
    CountSnoc(requests[..i], requests[i], IsPending);
    CountSnoc(requests[..i], requests[i], IsAssigned);
    CountSnoc(requests[..i], requests[i], IsCompleted);
  }

  /** The `totals` memo: a single pass over the list. */
  method ComputeTotals(requests: seq<PinCard>) returns (t: Totals)
    ensures t.total == |requests|
    ensures t.pending == Count(requests, IsPending)
    ensures t.assignedCount == Count(requests, IsAssigned)
    ensures t.completed == Count(requests, IsCompleted)
    ensures t.active == t.pending + t.assignedCount && t.past == t.completed
  {
    var pending, assignedCount, completed := 0, 0, 0;
    for i := 0 to |requests|
      invariant pending == Count(requests[..i], IsPending)
      invariant assignedCount == Count(requests[..i], IsAssigned)
      invariant completed == Count(requests[..i], IsCompleted)
    {
      var r := requests[i];
      CountStep(requests, i);
      if r.status == "pending" {
        pending := pending + 1;
      } else if r.status == "assigned" {
        assignedCount := assignedCount + 1;
      } else if r.status == "completed" {
        completed := completed + 1;
      }
    }
    assert requests[..|requests|] == requests;
    t := Totals(|requests|, pending, assignedCount, completed, pending + assignedCount, completed);
  }

  /** Active and past requests together are the requests with a known
      status, so they never exceed the total. */
  lemma TotalsAddUp(requests: seq<PinCard>)
    ensures Count(requests, IsPending) + Count(requests, IsAssigned) == Count(requests, IsOpen)
    ensures Count(requests, IsOpen) + Count(requests, IsCompleted) == Count(requests, IsKnown)
    ensures Count(requests, IsOpen) + Count(requests, IsCompleted) <= |requests|
  {
    CountSplit(requests, IsPending, IsAssigned, IsOpen);
    CountSplit(requests, IsOpen, IsCompleted, IsKnown);
  }

  function HasStatus(f: StatusFilter): PinCard -> bool
    requires f.Only?
  {
    (c: PinCard) => c.status == f.status
  }

  /** The `filtered` memo. */
  function Filtered(requests: seq<PinCard>, f: StatusFilter): (r: seq<PinCard>)
    ensures f == All ==> r == requests
    ensures f.Only? ==> forall c :: c in r <==> c in requests && c.status == f.status
    ensures multiset(r) <= multiset(requests)
  {
    if f == All then requests else Filter(requests, HasStatus(f))
  }

  function CreatedTime(c: PinCard): int {
    TimeOrZero(c.createdAt)
  }

  /** The `sorted` memo: the filtered requests, newest first. */
  function Sorted(filtered: seq<PinCard>): (r: seq<PinCard>)
    ensures multiset(r) == multiset(filtered)
    ensures forall i, j | 0 <= i < j < |r| :: TimeOrZero(r[i].createdAt) >= TimeOrZero(r[j].createdAt)
  {
    NewestFirst(filtered, CreatedTime)
  }

  /** Filtering by one status after another gives the requests with the
      second status that had the first, i.e. none unless they agree. */
  lemma FilterTwiceByStatus(requests: seq<PinCard>, a: string, b: string)
    ensures a != b ==> Filtered(Filtered(requests, Only(a)), Only(b)) == []
    ensures Filtered(Filtered(requests, Only(a)), Only(a)) == Filtered(requests, Only(a))
  {
    FilterIdempotent(requests, HasStatus(Only(a)));
  }

  // ---------------------------------------------------------------------
  // The handlers
  // ---------------------------------------------------------------------

  datatype Screen = Screen(
    requests: seq<PinCard>, loading: bool, error: Option<string>, query: string,
    filterStatus: StatusFilter, editTarget: Option<PinCard>, editTitle: string,
    editDescription: string, editCategoryId: Option<int>, editOpen: bool,
    saving: bool, saveError: Option<string>)

  /** The listing URL's query: the PIN id and, when non-blank, the trimmed filter. */
  datatype ListQuery = ListQuery(id: string, filter: Option<string>)

  function ListUrl(id: string, filter: string): (q: ListQuery)
    ensures q.id == id
    ensures IsBlank(filter) <==> q.filter.None?
    ensures q.filter.Some? ==> q.filter.value == Strip(filter) && q.filter.value != []
  {
    ListQuery(id, if IsBlank(filter) then None else Some(Strip(filter)))
  }

  /** `fetchRequests` once the list call has come back. */
  function AfterFetch(s: Screen, res: Fetched<ListReply<PinCard>>): (u: Screen)
    ensures !u.loading
    ensures Succeeded(res) ==> u == s.(requests := ItemsOrEmpty(res.body), loading := false, error := None)
    ensures !Succeeded(res) ==>
              u == s.(loading := false, error := Some(HttpFailure(res, "Failed to load requests")))
  {
    if Succeeded(res) then s.(requests := ItemsOrEmpty(res.body), loading := false, error := None)
    else s.(loading := false, error := Some(HttpFailure(res, "Failed to load requests")))
  }

  /** `handleSearch`: nothing without a PIN or with a blank query. */
  function SearchStep(s: Screen, pinId: Option<string>, res: Fetched<ListReply<PinCard>>): (r: (bool, Screen))
    ensures !r.0 <==> pinId.None? || pinId.value == [] || IsBlank(s.query)
    ensures !r.0 ==> r.1 == s
    ensures r.0 && Succeeded(res) ==>
              r.1 == s.(requests := ItemsOrEmpty(res.body), loading := false, error := None)
    ensures r.0 && !Succeeded(res) ==>
              r.1 == s.(loading := false, error := Some(HttpFailure(res, "Search failed")))
  {
    if pinId.None? || pinId.value == [] || IsBlank(s.query) then (false, s)
    else if Succeeded(res) then (true, s.(requests := ItemsOrEmpty(res.body), loading := false, error := None))
    else (true, s.(loading := false, error := Some(HttpFailure(res, "Search failed"))))
  }

  function OtherThan(id: int): PinCard -> bool {
    (c: PinCard) => c.id != id
  }

  /** What `handleDelete` does: whether it sent the DELETE, what it alerts,
      and the new list. */
  datatype DeleteEffect = DeleteEffect(sent: bool, alert: Option<string>, requests: seq<PinCard>)

  function DeleteStep(requests: seq<PinCard>, req: PinCard, confirmed: bool, res: Fetched<ReplyBody>): (e: DeleteEffect)
    ensures !e.sent <==> req.status != "pending" || !confirmed
    ensures !e.sent ==> e == DeleteEffect(false, None, requests)
    ensures e.sent && Succeeded(res) && res.body == True ==>
              e == DeleteEffect(true, None, Filter(requests, OtherThan(req.id)))
    ensures e.sent && Succeeded(res) && res.body.Text? ==> e == DeleteEffect(true, Some(res.body.s), requests)
    ensures e.sent && !Succeeded(res) ==>
              e == DeleteEffect(true, Some(MessageOr(DetailFailure(res, []), "Failed to delete request")), requests)
    ensures e.sent && Succeeded(res) && !res.body.True? && !res.body.Text? ==> e == DeleteEffect(true, None, requests)
  {
    if req.status != "pending" || !confirmed then DeleteEffect(false, None, requests)
    else if !Succeeded(res) then
      DeleteEffect(true, Some(MessageOr(DetailFailure(res, []), "Failed to delete request")), requests)
    else match res.body
      case True => DeleteEffect(true, None, Filter(requests, OtherThan(req.id)))
      case Text(m) => DeleteEffect(true, Some(m), requests)
      case _ => DeleteEffect(true, None, requests)
  }

  /** A deletion removes every card with that id and keeps the others in order. */
  lemma DeleteRemovesOnlyThatId(requests: seq<PinCard>, req: PinCard, confirmed: bool, res: Fetched<ReplyBody>)
    ensures var after := DeleteStep(requests, req, confirmed, res).requests;
            && (forall c | c in after :: c.id != req.id || after == requests)
            && Filter(after, OtherThan(req.id)) == Filter(requests, OtherThan(req.id))
  {
    FilterIdempotent(requests, OtherThan(req.id));
  }

  /** The PUT body of a save. */
  datatype SaveBody = SaveBody(title: string, description: string, categoryId: Option<int>)

  /** `handleSave` up to the PUT: nothing without a target, the "Title is
      required." message for a blank title, else the trimmed body. */
  function StartSave(s: Screen): (r: (Option<SaveBody>, Screen))
    ensures s.editTarget.None? ==> r == (None, s)
    ensures s.editTarget.Some? && IsBlank(s.editTitle) ==> r == (None, s.(saveError := Some("Title is required.")))
    ensures s.editTarget.Some? && !IsBlank(s.editTitle) ==>
              && r.0 == Some(SaveBody(Strip(s.editTitle), Strip(s.editDescription), s.editCategoryId))
              && r.1 == s.(saving := true)
    ensures r.0.Some? ==> r.0.value.title != []
  {
    if s.editTarget.None? then (None, s)
    else
      if IsBlank(s.editTitle) then (None, s.(saveError := Some("Title is required.")))
      else (Some(SaveBody(Strip(s.editTitle), Strip(s.editDescription), s.editCategoryId)), s.(saving := true))
  }

  /** `handleSave` after the PUT: on `true` the editor closes and the list
      is to be fetched again (the first component of the result). */
  function FinishSave(s: Screen, res: Fetched<ReplyBody>): (r: (bool, Screen))
    ensures !r.1.saving
    ensures r.0 <==> Succeeded(res) && res.body == True
    ensures r.0 ==> r.1 == s.(editOpen := false, editTarget := None, saving := false)
    ensures Succeeded(res) && res.body.Text? ==> r.1 == s.(saveError := Some(res.body.s), saving := false)
    ensures !Succeeded(res) ==>
              r.1 == s.(saveError := Some(MessageOr(DetailFailure(res, []), "Failed to save changes")), saving := false)
    ensures Succeeded(res) && !res.body.True? && !res.body.Text? ==> r.1 == s.(saving := false)
  {
    if !Succeeded(res) then
      (false, s.(saveError := Some(MessageOr(DetailFailure(res, []), "Failed to save changes")), saving := false))
    else match res.body
      case True => (true, s.(editOpen := false, editTarget := None, saving := false))
      case Text(m) => (false, s.(saveError := Some(m), saving := false))
      case _ => (false, s.(saving := false))
  }

  // ---------------------------------------------------------------------
  // The component
  // ---------------------------------------------------------------------

  class Dashboard {
    const pinId: Option<string>
    var requests: seq<PinCard>
    var loading: bool
    var error: Option<string>
    var query: string
    var filterStatus: StatusFilter
    var editTarget: Option<PinCard>
    var editTitle: string
    var editDescription: string
    var editCategoryId: Option<int>
    var editOpen: bool
    var saving: bool
    var saveError: Option<string>

    function State(): Screen
      reads this
    {
      Screen(requests, loading, error, query, filterStatus, editTarget, editTitle,
             editDescription, editCategoryId, editOpen, saving, saveError)
    }

    constructor (param: Option<string>, storedPinUserId: Option<int>)
      ensures pinId == ResolvePinId(param, storedPinUserId)
      ensures State() == Screen([], false, None, "", All, None, "", "", None, false, false, None)
    {
      pinId := ResolvePinId(param, storedPinUserId);
      requests, loading, error, query, filterStatus := [], false, None, "", All;
      editTarget, editTitle, editDescription, editCategoryId := None, "", "", None;
      editOpen, saving, saveError := false, false, None;
    }

    method FetchRequests(id: string, filter: string, res: Fetched<ListReply<PinCard>>) returns (q: ListQuery)
      modifies this
      ensures q == ListUrl(id, filter)
      ensures State() == AfterFetch(old(State()), res)
    {
      loading, error := true, None;
      q := ListUrl(id, filter);
      if !Succeeded(res) {
        loading, error := false, Some(HttpFailure(res, "Failed to load requests"));
        return;
      }
      requests, loading := ItemsOrEmpty(res.body), false;
    }

    method HandleSearch(res: Fetched<ListReply<PinCard>>) returns (sent: bool)
      modifies this
      ensures (sent, State()) == SearchStep(old(State()), pinId, res)
    {
      if pinId.None? || pinId.value == [] || IsBlank(query) {
        return false;
      }
      sent := true;
      loading, error := true, None;
      if !Succeeded(res) {
        loading, error := false, Some(HttpFailure(res, "Search failed"));
        return;
      }
      requests, loading := ItemsOrEmpty(res.body), false;
    }

    method HandleDelete(req: PinCard, confirmed: bool, res: Fetched<ReplyBody>) returns (sent: bool, alert: Option<string>)
      modifies this
      ensures var e := DeleteStep(old(requests), req, confirmed, res);
              sent == e.sent && alert == e.alert && State() == old(State()).(requests := e.requests)
    {
      if req.status != "pending" || !confirmed {
        return false, None;
      }
      sent, alert := true, None;
      if !Succeeded(res) {
        alert := Some(MessageOr(DetailFailure(res, []), "Failed to delete request"));
      } else if res.body == True {
        requests := Filter(requests, OtherThan(req.id));
      } else if res.body.Text? {
        alert := Some(res.body.s);
      }
    }

    /** `openEditor`: the dialog's fields from the card. */
    method OpenEditor(r: PinCard)
      modifies this
      ensures State() == old(State()).(editTarget := Some(r), editTitle := r.title,
                                       editDescription := r.description.GetOr(""),
                                       editCategoryId := r.categoryId, saveError := None, editOpen := true)
    {
      editTarget, editTitle, editDescription := Some(r), r.title, r.description.GetOr("");
      editCategoryId, saveError := r.categoryId, None;
      editOpen := true;
    }

    method BeginSave() returns (body: Option<SaveBody>)
      modifies this
      ensures (body, State()) == StartSave(old(State()))
    {
      if editTarget.None? {
        return None;
      }
      if IsBlank(editTitle) {
        saveError := Some("Title is required.");
        return None;
      }
      body := Some(SaveBody(Strip(editTitle), Strip(editDescription), editCategoryId));
      saving := true;
    }

    method EndSave(res: Fetched<ReplyBody>) returns (refetch: bool)
      modifies this
      ensures (refetch, State()) == FinishSave(old(State()), res)
    {
      refetch := false;
      if !Succeeded(res) {
        saveError := Some(MessageOr(DetailFailure(res, []), "Failed to save changes"));
      } else if res.body == True {
        refetch := true;
        editOpen, editTarget := false, None;
      } else if res.body.Text? {
        saveError := Some(res.body.s);
      }
      saving := false;
    }

    /** `handleReset`: the query is cleared; without a PIN nothing happens. */
    method HandleReset() returns (refetch: bool)
      modifies this
      ensures refetch <==> pinId.Some?
      ensures refetch ==> State() == old(State()).(query := "")
      ensures !refetch ==> State() == old(State())
    {
      if pinId.None? {
        return false;
      }
      query := "";
      refetch := true;
    }
  }
}
