/** The CSR dashboard: paginated loading of the "available" or
    "shortlisted" request cards, search, the shortlist toggle and the view
    counter. The component's state is the class Dashboard. Each handler is
    a method that updates it as the setters do, proved equal to a function
    of the old state and the response, and the lemmas state what those
    functions promise. */
module CsrDashboard {
  import opened Common
  import opened Seqs
  import opened Client

  const PageSize := 24

  datatype ViewMode = Available | Shortlisted

  /** A request card: `my_shortlisted`, `shortlistees_count` and
      `view_count` may be absent from the JSON. */
  datatype Card = Card(
    id: int, title: string, status: string, createdAt: Option<int>,
    myShortlisted: Option<bool>, shortlisteesCount: Option<int>, viewCount: Option<int>)

  predicate Marked(c: Card) {
    c.myShortlisted == Some(true)
  }

  predicate PendingCard(c: Card) {
    c.status == "pending"
  }

  /** The client-side filter of the "available" view. */
  predicate AvailableCard(c: Card) {
    c.status == "pending" && !Marked(c)
  }

  /** The client-side filter of the "shortlisted" view. */
  predicate ShortlistedCard(c: Card) {
    c.status == "pending" && Marked(c)
  }

  function ViewFilter(mode: ViewMode, list: seq<Card>): (r: seq<Card>)
    ensures forall c :: c in r <==> c in list && c.status == "pending" &&
                                     (mode == Available <==> !Marked(c))
    ensures |r| <= |list|
  {
    Filter(list, if mode == Available then AvailableCard else ShortlistedCard)
  }

  /** Every pending card shows in exactly one of the two views. */
  lemma ViewsSplitPending(list: seq<Card>)
    ensures |ViewFilter(Available, list)| + |ViewFilter(Shortlisted, list)|
            == Count(list, PendingCard)
  {
    CountSplit(list, AvailableCard, ShortlistedCard, PendingCard);
  }

  datatype Screen = Screen(
    requests: seq<Card>, loading: bool, error: Option<string>, hasMore: bool,
    viewMode: ViewMode, query: string, offset: int, csrId: Option<int>,
    shortlistBusy: Option<int>)

  /** The query string of the listing endpoint. */
  datatype ListQuery = ListQuery(csrId: Option<int>, status: string, limit: int, offset: int)

  function ListUrl(s: Screen, reset: bool): (q: ListQuery)
    ensures q.limit == PageSize
    ensures q.offset == if reset then 0 else s.offset
    ensures q.csrId.Some? <==> IntTruthy(s.csrId)
    ensures q.status == if s.viewMode == Available then "pending" else "shortlisted"
  {
    ListQuery(if IntTruthy(s.csrId) then s.csrId else None,
              if s.viewMode == Available then "pending" else "shortlisted",
              PageSize, if reset then 0 else s.offset)
  }

  // ---------------------------------------------------------------------
  // fetchPage and fetchSearchResults
  // ---------------------------------------------------------------------

  function AfterFetchPage(s: Screen, reset: bool, res: Fetched<Option<seq<Card>>>): (u: Screen)
    ensures !u.loading
    ensures u.viewMode == s.viewMode && u.query == s.query && u.csrId == s.csrId
    ensures u.shortlistBusy == s.shortlistBusy
    ensures !Succeeded(res) ==>
              u == s.(loading := false, error := Some(FailureMessage(res, "Failed to load requests")))
    ensures Succeeded(res) ==>
              var page := ViewFilter(s.viewMode, ListOrEmpty(res.body));
              && u.error.None?
              && u.requests == (if reset then page else s.requests + page)
              && u.offset == (if reset then |page| else s.offset + |page|)
              && (u.hasMore <==> |page| == PageSize)
  {
    if !Succeeded(res) then
      s.(loading := false, error := Some(FailureMessage(res, "Failed to load requests")))
    else
      var page := ViewFilter(s.viewMode, ListOrEmpty(res.body));
      s.(requests := if reset then page else s.requests + page,
         offset := if reset then |page| else s.offset + |page|,
         hasMore := |page| == PageSize, loading := false, error := None)
  }

  /** As long as nothing else changes the list, the offset counts the cards
      loaded so far, so the next page starts after them. */
  lemma OffsetCountsLoaded(s: Screen, reset: bool, res: Fetched<Option<seq<Card>>>)
    requires s.offset == |s.requests|
    ensures AfterFetchPage(s, reset, res).offset == |AfterFetchPage(s, reset, res).requests|
  {
  }

  /** Appending never drops or merges cards: a card already loaded and a
      card of the page both remain, even when they have the same id. */
  lemma AppendKeepsEverything(s: Screen, res: Fetched<Option<seq<Card>>>)
    requires Succeeded(res)
    ensures var u := AfterFetchPage(s, false, res);
            |u.requests| == |s.requests| + |ViewFilter(s.viewMode, ListOrEmpty(res.body))|
            && u.requests[..|s.requests|] == s.requests
  {
  }

  function AfterSearch(s: Screen, res: Fetched<Option<seq<Card>>>): (u: Screen)
    ensures IsBlank(s.query) ==> u == AfterFetchPage(s, true, res)
    ensures !IsBlank(s.query) && Succeeded(res) ==>
              u == s.(requests := ViewFilter(s.viewMode, ListOrEmpty(res.body)),
                      hasMore := false, loading := false, error := None)
    ensures !IsBlank(s.query) && !Succeeded(res) ==>
              u == s.(loading := false, error := Some(FailureMessage(res, "Failed to search requests")))
  {
    if IsBlank(s.query) then AfterFetchPage(s, true, res)
    else if !Succeeded(res) then
      s.(loading := false, error := Some(FailureMessage(res, "Failed to search requests")))
    else
      s.(requests := ViewFilter(s.viewMode, ListOrEmpty(res.body)), hasMore := false,
         loading := false, error := None)
  }

  // ---------------------------------------------------------------------
  // toggleShortlist
  // ---------------------------------------------------------------------

  datatype ShortlistCall = AddCall(requestId: int, csrId: int) | RemoveCall(requestId: int, csrId: int)

  const LogInAsCsr := "Please log in as a CSR."

  /** `toggleShortlist` up to the call: the call it sends, what it alerts,
      and the new state. */
  function StartToggle(s: Screen, req: Card): (r: (Option<ShortlistCall>, Option<string>, Screen))
    ensures !IntTruthy(s.csrId) ==> r == (None, Some(LogInAsCsr), s)
    ensures IntTruthy(s.csrId) ==> r.1.None? && r.2 == s.(shortlistBusy := Some(req.id))
    ensures IntTruthy(s.csrId) && Marked(req) ==> r.0 == Some(RemoveCall(req.id, s.csrId.value))
    ensures IntTruthy(s.csrId) && !Marked(req) ==> r.0 == Some(AddCall(req.id, s.csrId.value))
  {
    if !IntTruthy(s.csrId) then (None, Some(LogInAsCsr), s)
    else
      var call := if Marked(req) then RemoveCall(req.id, s.csrId.value) else AddCall(req.id, s.csrId.value);
      (Some(call), None, s.(shortlistBusy := Some(req.id)))
  }

  /** The card after a removal: unmarked, one shortlistee fewer (1 when absent). */
  function Unmarked(c: Card): Card {
    c.(myShortlisted := Some(false), shortlisteesCount := Some(c.shortlisteesCount.GetOr(1) - 1))
  }

  /** The card after an addition: marked, one shortlistee more (0 when absent). */
  function Marking(c: Card): Card {
    c.(myShortlisted := Some(true), shortlisteesCount := Some(c.shortlisteesCount.GetOr(0) + 1))
  }

  /** `prev.map(r => r.id === id ? f(r) : r)`. */
  function PatchId(list: seq<Card>, id: int, f: Card -> Card): (r: seq<Card>)
    ensures |r| == |list|
    ensures forall i | 0 <= i < |list| :: r[i] == if list[i].id == id then f(list[i]) else list[i]
  {
    seq(|list|, i requires 0 <= i < |list| => if list[i].id == id then f(list[i]) else list[i])
  }

  /** The test `r.id !== id`. */
  function OtherThan(id: int): Card -> bool {
    (c: Card) => c.id != id
  }

  /** `prev.filter(r => r.id !== id)`. */
  function DropId(list: seq<Card>, id: int): (r: seq<Card>)
    ensures forall c :: c in r <==> c in list && c.id != id
  {
    Filter(list, OtherThan(id))
  }

  /** The list after a toggle that the backend accepted with `true`. */
  function Toggled(mode: ViewMode, list: seq<Card>, req: Card): seq<Card> {
    if Marked(req) then
      if mode == Shortlisted then DropId(list, req.id) else PatchId(list, req.id, Unmarked)
    else
      if mode == Available then DropId(list, req.id) else PatchId(list, req.id, Marking)
  }

  function FinishToggle(s: Screen, req: Card, res: Fetched<ReplyBody>): (u: Screen)
    ensures u.shortlistBusy.None?
    ensures Succeeded(res) && res.body == True ==>
              u == s.(requests := Toggled(s.viewMode, s.requests, req), shortlistBusy := None)
    ensures !(Succeeded(res) && res.body == True) ==> u == s.(shortlistBusy := None)
  {
    if Succeeded(res) && res.body == True then
      s.(requests := Toggled(s.viewMode, s.requests, req), shortlistBusy := None)
    else s.(shortlistBusy := None)
  }

  /** A toggle never alters, adds or removes a card with another id. */
  lemma ToggleTouchesOnlyItsCard(mode: ViewMode, list: seq<Card>, req: Card)
    ensures Filter(Toggled(mode, list, req), OtherThan(req.id)) == Filter(list, OtherThan(req.id))
  {
    var other := OtherThan(req.id);
    if (Marked(req) && mode == Shortlisted) || (!Marked(req) && mode == Available) {
      FilterIdempotent(list, other);
    } else {
      var f := if Marked(req) then Unmarked else Marking;
      FilterPointwise(list, PatchId(list, req.id, f), other);
    }
  }

  /** In the view where the card stays, adding and then removing the mark
      gives the card back as it was when it had a count and no mark. */
  lemma MarkThenUnmark(c: Card, n: int)
    requires c.myShortlisted == Some(false) && c.shortlisteesCount == Some(n)
    ensures Unmarked(Marking(c)) == c
  {
  }

  /** After a removal in the shortlisted view, or an addition in the
      available view, no card with that id is left. */
  lemma LeavingTheViewDropsTheCard(mode: ViewMode, list: seq<Card>, req: Card)
    requires Marked(req) <==> mode == Shortlisted
    ensures forall c | c in Toggled(mode, list, req) :: c.id != req.id
  {
  }

  // ---------------------------------------------------------------------
  // The view button
  // ---------------------------------------------------------------------

  function Viewed(c: Card): Card {
    c.(viewCount := Some(c.viewCount.GetOr(0) + 1))
  }

  function AfterView(s: Screen, id: int, res: Fetched<ReplyBody>): (u: Screen)
    ensures Succeeded(res) && res.body == True ==> u == s.(requests := PatchId(s.requests, id, Viewed))
    ensures !(Succeeded(res) && res.body == True) ==> u == s
  {
    if Succeeded(res) && res.body == True then s.(requests := PatchId(s.requests, id, Viewed)) else s
  }

  /** The view count of exactly the clicked card goes up by one. */
  lemma ViewCountsOnlyTheClickedCard(list: seq<Card>, id: int)
    ensures var r := PatchId(list, id, Viewed);
            && |r| == |list|
            && (forall i | 0 <= i < |list| && list[i].id == id ::
                  r[i] == list[i].(viewCount := Some(list[i].viewCount.GetOr(0) + 1)))
            && Filter(r, OtherThan(id)) == Filter(list, OtherThan(id))
  {
    FilterPointwise(list, PatchId(list, id, Viewed), OtherThan(id));
  }

  function CreatedTime(c: Card): int {
    TimeOrZero(c.createdAt)
  }

  /** Cards by `created_at`, newest first, a missing time counting as 0. */
  function Sorted(list: seq<Card>): (r: seq<Card>)
    ensures multiset(r) == multiset(list)
    ensures forall i, j | 0 <= i < j < |r| :: TimeOrZero(r[i].createdAt) >= TimeOrZero(r[j].createdAt)
  {
    NewestFirst(list, CreatedTime)
  }

  // ---------------------------------------------------------------------
  // useCsrId
  // ---------------------------------------------------------------------

  /** The stored user's `role`: a string, a falsy value (null, missing, 0,
      ""), or a truthy value of another type, such as the account's integer
      role, on which `toUpperCase` throws. */
  datatype StoredRole = RoleText(s: string) | RoleFalsy | RoleOther

  /** The parsed `user` item: its role, and `Number(u.id)` with None for NaN. */
  datatype StoredUser = StoredUser(role: StoredRole, id: Option<int>)

  /** `useCsrId`: the stored user's `Number(u.id) || null` when its role
      upper-cases to "CSR", else null. `stored` is None when there is no
      item or it does not parse; a throw inside the `try` also leaves null. */
  function UseCsrId(stored: Option<StoredUser>): (id: Option<int>)
    ensures id.Some? <==> stored.Some? && stored.value.role.RoleText? &&
                          Upper(stored.value.role.s) == "CSR" && IntTruthy(stored.value.id)
    ensures id.Some? ==> id == stored.value.id && id.value != 0
  {
    match stored
    case None => None
    case Some(u) =>
      match u.role
      case RoleText(r) => if Upper(r) == "CSR" && IntTruthy(u.id) then u.id else None
      case RoleFalsy => None
      case RoleOther => None
  }

  /** A stored user whose role is not a string, such as an account row with
      its integer role, never yields a CSR id, so every toggle only alerts. */
  lemma NonTextRoleCannotToggle(u: StoredUser, s: Screen, req: Card)
    requires !u.role.RoleText?
    requires s.csrId == UseCsrId(Some(u))
    ensures StartToggle(s, req) == (None, Some(LogInAsCsr), s)
  {
  }

  // ---------------------------------------------------------------------
  // The component
  // ---------------------------------------------------------------------

  class Dashboard {
    var requests: seq<Card>
    var loading: bool
    var error: Option<string>
    var hasMore: bool
    var viewMode: ViewMode
    var query: string
    var offset: int
    var csrId: Option<int>
    var shortlistBusy: Option<int>

    function State(): Screen
      reads this
    {
      Screen(requests, loading, error, hasMore, viewMode, query, offset, csrId, shortlistBusy)
    }

    /** The initial state, once the `useCsrId` effect has read the stored user. */
    constructor (stored: Option<StoredUser>)
      ensures State() == Screen([], false, None, true, Available, "", 0, UseCsrId(stored), None)
    {
      requests, loading, error, hasMore := [], false, None, true;
      viewMode, query, offset := Available, "", 0;
      csrId, shortlistBusy := UseCsrId(stored), None;
    }

    method FetchPage(reset: bool, res: Fetched<Option<seq<Card>>>) returns (q: ListQuery)
      modifies this
      ensures q == ListUrl(old(State()), reset)
      ensures State() == AfterFetchPage(old(State()), reset, res)
    {
      ghost var s0 := State();
      loading, error := true, None;
      assert State() == s0.(loading := true, error := None);
      q := ListUrl(State(), reset);
      if !Succeeded(res) {
        loading, error := false, Some(FailureMessage(res, "Failed to load requests"));
        return;
      }
      var page := ViewFilter(viewMode, ListOrEmpty(res.body));
      if reset {
        requests, offset := page, |page|;
      } else {
        requests, offset := requests + page, offset + |page|;
      }
      hasMore, loading := |page| == PageSize, false;
      assert State() == s0.(requests := requests, offset := offset, hasMore := hasMore, loading := false, error := None);
    }

    method FetchSearchResults(res: Fetched<Option<seq<Card>>>)
      modifies this
      ensures State() == AfterSearch(old(State()), res)
    {
      if IsBlank(query) {
        var _ := FetchPage(true, res);
        return;
      }
      loading := true;
      error := None;
      if !Succeeded(res) {
        error := Some(FailureMessage(res, "Failed to search requests"));
        loading := false;
        return;
      }
      requests := ViewFilter(viewMode, ListOrEmpty(res.body));
      hasMore := false;
      loading := false;
    }

    /** The part of `toggleShortlist` before the await. */
    method BeginToggle(req: Card) returns (call: Option<ShortlistCall>, alert: Option<string>)
      modifies this
      ensures (call, alert, State()) == StartToggle(old(State()), req)
    {
      if !IntTruthy(csrId) {
        return None, Some(LogInAsCsr);
      }
      alert := None;
      shortlistBusy := Some(req.id);
      call := if Marked(req) then Some(RemoveCall(req.id, csrId.value)) else Some(AddCall(req.id, csrId.value));
    }

    /** The part of `toggleShortlist` after the await, with its `finally`. */
    method EndToggle(req: Card, res: Fetched<ReplyBody>)
      modifies this
      ensures State() == FinishToggle(old(State()), req, res)
    {
      if Succeeded(res) && res.body == True {
        if Marked(req) {
          if viewMode == Shortlisted {
            requests := DropId(requests, req.id);
          } else {
            requests := PatchId(requests, req.id, Unmarked);
          }
        } else {
          if viewMode == Available {
            requests := DropId(requests, req.id);
          } else {
            requests := PatchId(requests, req.id, Marking);
          }
        }
      }
      shortlistBusy := None;
    }

    method ViewClicked(id: int, res: Fetched<ReplyBody>)
      modifies this
      ensures State() == AfterView(old(State()), id, res)
    {
      if Succeeded(res) && res.body == True {
        requests := PatchId(requests, id, Viewed);
      }
    }

    method SetViewMode(mode: ViewMode)
      modifies this
      ensures State() == old(State()).(viewMode := mode)
    {
      viewMode := mode;
    }

    method SetQuery(text: string)
      modifies this
      ensures State() == old(State()).(query := text)
    {
      query := text;
    }
  }
}
