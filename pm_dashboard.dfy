/** The platform manager's category dashboard: listing and searching
    categories, and creating, renaming and deleting them, with the replies
    decoded as the page does. Alerts are the handlers' `alert` outputs. */
module PmDashboard {
  import opened Common
  import opened Seqs
  import opened Client

  datatype Cat = Cat(id: int, name: string)

  datatype Screen = Screen(
    categories: seq<Cat>, loading: bool, error: Option<string>, editOpen: bool,
    newOpen: bool, selected: Option<Cat>, categoryName: string, saving: bool, searchTerm: string)

  const NameRequired := "Name is required"
  const Unexpected := "\U{26A0}\U{FE0F} Unexpected response from server."

  /** `fetchAllCategories` once the call has come back. */
  function AfterFetchAll(s: Screen, res: Fetched<seq<Cat>>): (u: Screen)
    ensures !u.loading
    ensures Succeeded(res) ==> u == s.(categories := res.body, loading := false, error := None)
    ensures !Succeeded(res) ==>
              u == s.(loading := false, error := Some(HttpFailure(res, "Failed to fetch categories")))
  {
    if Succeeded(res) then s.(categories := res.body, loading := false, error := None)
    else s.(loading := false, error := Some(HttpFailure(res, "Failed to fetch categories")))
  }

  /** `fetchSearchedCategories(term)`: a blank term loads every category
      instead; otherwise the untrimmed term goes to the search endpoint,
      whose reply replaces the list. */
  function AfterSearch(s: Screen, term: string, res: Fetched<seq<Cat>>): (u: Screen)
    ensures IsBlank(term) ==> u == AfterFetchAll(s, res)
    ensures !IsBlank(term) && Succeeded(res) ==> u == s.(categories := res.body, loading := false, error := None)
    ensures !IsBlank(term) && !Succeeded(res) ==>
              u == s.(loading := false, error := Some(HttpFailure(res, "Failed to search categories")))
  {
    if IsBlank(term) then AfterFetchAll(s, res)
    else if Succeeded(res) then s.(categories := res.body, loading := false, error := None)
    else s.(loading := false, error := Some(HttpFailure(res, "Failed to search categories")))
  }

  /** Whatever the term, a search touches only the list, `loading` and
      `error`: a successful one shows exactly the server's list, never the
      old one, and a failed one keeps the old list beside its error. */
  lemma SearchShowsServerListOrKeeps(s: Screen, term: string, res: Fetched<seq<Cat>>)
    ensures var u := AfterSearch(s, term, res);
            && u.(categories := s.categories, loading := s.loading, error := s.error) == s
            && !u.loading
            && (Succeeded(res) ==> u.categories == res.body && u.error.None?)
            && (!Succeeded(res) ==> u.categories == s.categories && u.error.Some?)
  {
  }

  /** The JSON body of a create or an update. */
  datatype NameBody = NameBody(name: string)

  /** What a handler does: the call it sends, whether the list is fetched
      again, and what it alerts. */
  datatype Effect = Effect(refetch: bool, alert: Option<string>)

  /** `handleCreate` up to the POST. */
  function StartCreate(s: Screen): (r: (Option<NameBody>, Option<string>, Screen))
    ensures IsBlank(s.categoryName) <==> r.0.None?
    ensures IsBlank(s.categoryName) ==> r == (None, Some(NameRequired), s)
    ensures !IsBlank(s.categoryName) ==> r == (Some(NameBody(Strip(s.categoryName))), None, s.(saving := true))
  {
    if IsBlank(s.categoryName) then (None, Some(NameRequired), s)
    else (Some(NameBody(Strip(s.categoryName))), None, s.(saving := true))
  }

  /** The reply of a create or an update, which the page decodes without
      looking at `res.ok`: `true` succeeds, a string is an error message,
      anything else is unexpected. */
  function ReplyAlert(res: Fetched<ReplyBody>, success: string, fallback: string): (r: (bool, string))
    ensures r.0 <==> res.Response? && res.body == True
    ensures r.0 ==> r.1 == success
    ensures res.Response? && res.body.Text? ==> r.1 == "\U{274C} " + res.body.s
    ensures res.Response? && !res.body.True? && !res.body.Text? ==> r.1 == Unexpected
    ensures res.Thrown? ==> r.1 == MessageOr(res.message, fallback)
  {
    match res
    case Thrown(m) => (false, MessageOr(m, fallback))
    case Response(_, _, _, body) =>
      match body
      case True => (true, success)
      case Text(m) => (false, "\U{274C} " + m)
      case _ => (false, Unexpected)
  }

  function FinishCreate(s: Screen, res: Fetched<ReplyBody>): (r: (Effect, Screen))
    ensures !r.1.saving
    ensures r.0.refetch <==> res.Response? && res.body == True
    ensures r.0.alert == Some(ReplyAlert(res, "\U{2705} Category created successfully!", "Failed to create category").1)
    ensures r.0.refetch ==> r.1 == s.(newOpen := false, categoryName := "", saving := false)
    ensures !r.0.refetch ==> r.1 == s.(saving := false)
  {
    var (ok, message) := ReplyAlert(res, "\U{2705} Category created successfully!", "Failed to create category");
    (Effect(ok, Some(message)),
     if ok then s.(newOpen := false, categoryName := "", saving := false) else s.(saving := false))
  }

  /** `handleUpdate` up to the PUT: nothing without a selected category. */
  function StartUpdate(s: Screen): (r: (Option<(int, NameBody)>, Option<string>, Screen))
    ensures s.selected.None? ==> r == (None, None, s)
    ensures s.selected.Some? && IsBlank(s.categoryName) ==> r == (None, Some(NameRequired), s)
    ensures s.selected.Some? && !IsBlank(s.categoryName) ==>
              r == (Some((s.selected.value.id, NameBody(Strip(s.categoryName)))), None, s.(saving := true))
  {
    if s.selected.None? then (None, None, s)
    else if IsBlank(s.categoryName) then (None, Some(NameRequired), s)
    else (Some((s.selected.value.id, NameBody(Strip(s.categoryName)))), None, s.(saving := true))
  }

  function FinishUpdate(s: Screen, res: Fetched<ReplyBody>): (r: (Effect, Screen))
    ensures !r.1.saving
    ensures r.0.refetch <==> res.Response? && res.body == True
    ensures r.0.alert == Some(ReplyAlert(res, "\U{2705} Category updated successfully!", "Failed to update category").1)
    ensures r.0.refetch ==> r.1 == s.(editOpen := false, selected := None, categoryName := "", saving := false)
    ensures !r.0.refetch ==> r.1 == s.(saving := false)
  {
    var (ok, message) := ReplyAlert(res, "\U{2705} Category updated successfully!", "Failed to update category");
    (Effect(ok, Some(message)),
     if ok then s.(editOpen := false, selected := None, categoryName := "", saving := false) else s.(saving := false))
  }

  function OtherThan(id: int): Cat -> bool {
    (c: Cat) => c.id != id
  }

  /** The delete reply counts as success when it is `true` or `{success: true}`. */
  predicate DeleteAccepted(body: ReplyBody) {
    body == True || (body.Object? && body.success)
  }

  /** `handleDelete`: whether the DELETE was sent, the alert, and the new list. */
  function DeleteStep(categories: seq<Cat>, cat: Cat, confirmed: bool, res: Fetched<ReplyBody>): (r: (bool, Option<string>, seq<Cat>))
    ensures !confirmed ==> r == (false, None, categories)
    ensures confirmed ==> r.0 && r.1.Some?
    ensures confirmed && Succeeded(res) && DeleteAccepted(res.body) ==> r.2 == Filter(categories, OtherThan(cat.id))
    ensures !(confirmed && Succeeded(res) && DeleteAccepted(res.body)) ==> r.2 == categories
    ensures confirmed && res.Response? && !res.ok ==>
              r.1 == Some(MessageOr(if res.body.Text? then res.body.s else "Failed to delete category",
                                    "Failed to delete category"))
    ensures confirmed && res.Thrown? ==> r.1 == Some(MessageOr(res.message, "Failed to delete category"))
    ensures confirmed && Succeeded(res) && DeleteAccepted(res.body) ==>
              r.1 == Some("\U{2705} Category \"" + cat.name + "\" deleted. Requests using it were set to no category.")
    ensures confirmed && Succeeded(res) && !DeleteAccepted(res.body) && res.body.Text? ==>
              r.1 == Some("\U{26A0}\U{FE0F} " + res.body.s)
    ensures confirmed && Succeeded(res) && !DeleteAccepted(res.body) && !res.body.Text? ==>
              r.1 == Some("\U{274C} Failed to delete category. Please try again.")
  {
    if !confirmed then (false, None, categories)
    else match res
      case Thrown(m) => (true, Some(MessageOr(m, "Failed to delete category")), categories)
      case Response(ok, _, _, body) =>
        if !ok then
          (true, Some(MessageOr(if body.Text? then body.s else "Failed to delete category", "Failed to delete category")),
           categories)
        else if DeleteAccepted(body) then
          (true, Some("\U{2705} Category \"" + cat.name + "\" deleted. Requests using it were set to no category."),
           Filter(categories, OtherThan(cat.id)))
        else if body.Text? then (true, Some("\U{26A0}\U{FE0F} " + body.s), categories)
        else (true, Some("\U{274C} Failed to delete category. Please try again."), categories)
  }

  /** A deletion drops exactly the categories with that id. */
  lemma DeleteRemovesOnlyThatCategory(categories: seq<Cat>, cat: Cat, confirmed: bool, res: Fetched<ReplyBody>)
    ensures var after := DeleteStep(categories, cat, confirmed, res).2;
            && Filter(after, OtherThan(cat.id)) == Filter(categories, OtherThan(cat.id))
            && (after != categories ==> forall c | c in after :: c.id != cat.id)
  {
    FilterIdempotent(categories, OtherThan(cat.id));
  }

  class Dashboard {
    var categories: seq<Cat>
    var loading: bool
    var error: Option<string>
    var editOpen: bool
    var newOpen: bool
    var selected: Option<Cat>
    var categoryName: string
    var saving: bool
    var searchTerm: string

    function State(): Screen
      reads this
    {
      Screen(categories, loading, error, editOpen, newOpen, selected, categoryName, saving, searchTerm)
    }

    constructor ()
      ensures State() == Screen([], false, None, false, false, None, "", false, "")
    {
      categories, loading, error := [], false, None;
      editOpen, newOpen, selected, categoryName := false, false, None, "";
      saving, searchTerm := false, "";
    }

    method FetchAllCategories(res: Fetched<seq<Cat>>)
      modifies this
      ensures State() == AfterFetchAll(old(State()), res)
    {
      loading, error := true, None;
      if Succeeded(res) {
        categories := res.body;
      } else {
        error := Some(HttpFailure(res, "Failed to fetch categories"));
      }
      loading := false;
    }

    method FetchSearchedCategories(term: string, res: Fetched<seq<Cat>>)
      modifies this
      ensures State() == AfterSearch(old(State()), term, res)
    {
      if IsBlank(term) {
        FetchAllCategories(res);
        return;
      }
      loading, error := true, None;
      if Succeeded(res) {
        categories := res.body;
      } else {
        error := Some(HttpFailure(res, "Failed to search categories"));
      }
      loading := false;
    }

    method HandleSearch(res: Fetched<seq<Cat>>)
      modifies this
      ensures State() == AfterSearch(old(State()), old(searchTerm), res)
    {
      if !IsBlank(searchTerm) {
        FetchSearchedCategories(searchTerm, res);
      } else {
        FetchAllCategories(res);
      }
    }

    method BeginCreate() returns (body: Option<NameBody>, alert: Option<string>)
      modifies this
      ensures (body, alert, State()) == StartCreate(old(State()))
    {
      ghost var s0 := State();
      if IsBlank(categoryName) {
        return None, Some(NameRequired);
      }
      saving := true;
      body, alert := Some(NameBody(Strip(categoryName))), None;
      assert State() == s0.(saving := true);
    }

    method EndCreate(res: Fetched<ReplyBody>) returns (e: Effect)
      modifies this
      ensures (e, State()) == FinishCreate(old(State()), res)
    {
      var (ok, message) := ReplyAlert(res, "\U{2705} Category created successfully!", "Failed to create category");
      e := Effect(ok, Some(message));
      if ok {
        newOpen, categoryName := false, "";
      }
      saving := false;
    }

    method BeginUpdate() returns (call: Option<(int, NameBody)>, alert: Option<string>)
      modifies this
      ensures (call, alert, State()) == StartUpdate(old(State()))
    {
      ghost var s0 := State();
      if selected.None? {
        return None, None;
      }
      if IsBlank(categoryName) {
        return None, Some(NameRequired);
      }
      saving := true;
      call, alert := Some((selected.value.id, NameBody(Strip(categoryName)))), None;
      assert State() == s0.(saving := true);
    }

    method EndUpdate(res: Fetched<ReplyBody>) returns (e: Effect)
      modifies this
      ensures (e, State()) == FinishUpdate(old(State()), res)
    {
      var (ok, message) := ReplyAlert(res, "\U{2705} Category updated successfully!", "Failed to update category");
      e := Effect(ok, Some(message));
      if ok {
        editOpen, selected, categoryName := false, None, "";
      }
      saving := false;
    }

    method HandleDelete(cat: Cat, confirmed: bool, res: Fetched<ReplyBody>) returns (sent: bool, alert: Option<string>)
      modifies this
      ensures var (s, a, after) := DeleteStep(old(categories), cat, confirmed, res);
              sent == s && alert == a && State() == old(State()).(categories := after)
    {
      var (s, a, after) := DeleteStep(categories, cat, confirmed, res);
      sent, alert := s, a;
      if s && Succeeded(res) && DeleteAccepted(res.body) {
        categories := Filter(categories, OtherThan(cat.id));
      }
    }
  }
}
