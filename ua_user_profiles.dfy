/** The user admin's profile page: listing and searching profiles, and the
    create, rename, suspend and reactivate actions with their replies decoded
    as the page does. Alerts are the handlers' `alert` outputs. */
module UaUserProfiles {
  import opened Common
  import opened Client

  datatype Profile = Profile(id: int, name: string, status: string)

  datatype Screen = Screen(
    profiles: seq<Profile>, loading: bool, openDialog: bool, editDialog: bool,
    selected: Option<Profile>, newName: string, searchInput: string, actionLoading: bool)

  /** What a finished handler did: whether the list is fetched again, and
      what it alerts. */
  datatype Effect = Effect(refetch: bool, alert: Option<string>)

  const LoadFailed := "\U{274C} Failed to load profiles."
  const SearchFailed := "\U{274C} Search failed. Please try again."

  /** `fetchProfiles`: the list on success; on any failure the old list
      stays and an alert is shown. */
  function AfterFetch(s: Screen, res: Fetched<seq<Profile>>): (r: (Option<string>, Screen))
    ensures !r.1.loading
    ensures Succeeded(res) ==> r == (None, s.(profiles := res.body, loading := false))
    ensures !Succeeded(res) ==> r == (Some(LoadFailed), s.(loading := false))
  {
    if Succeeded(res) then (None, s.(profiles := res.body, loading := false))
    else (Some(LoadFailed), s.(loading := false))
  }

  /** `handleSearch`: a blank input reloads every profile; a 404 empties the
      table; any other failure keeps the table. */
  function SearchStep(s: Screen, res: Fetched<seq<Profile>>): (r: (Option<string>, Screen))
    ensures !r.1.loading
    ensures IsBlank(s.searchInput) ==> r == AfterFetch(s, res)
    ensures !IsBlank(s.searchInput) && res.Response? && res.status == 404 ==>
              r == (Some("\U{26A0}\U{FE0F} No profiles found matching \"" + s.searchInput + "\"."),
                    s.(profiles := [], loading := false))
    ensures !IsBlank(s.searchInput) && !(res.Response? && res.status == 404) && !Succeeded(res) ==>
              r == (Some(SearchFailed), s.(loading := false))
    ensures !IsBlank(s.searchInput) && Succeeded(res) && res.status != 404 ==>
              r == (None, s.(profiles := res.body, loading := false))
  {
    if IsBlank(s.searchInput) then AfterFetch(s, res)
    else match res
      case Thrown(_) => (Some(SearchFailed), s.(loading := false))
      case Response(ok, status, _, body) =>
        if status == 404 then
          (Some("\U{26A0}\U{FE0F} No profiles found matching \"" + s.searchInput + "\"."),
           s.(profiles := [], loading := false))
        else if !ok then (Some(SearchFailed), s.(loading := false))
        else (None, s.(profiles := body, loading := false))
  }

  /** A search either shows a list that came back from the server, empties
      the table on a 404, or leaves the table as it was. */
  lemma SearchShowsServerListOrKeeps(s: Screen, res: Fetched<seq<Profile>>)
    ensures var u := SearchStep(s, res).1;
            || u.profiles == s.profiles
            || (res.Response? && u.profiles == res.body)
            || (!IsBlank(s.searchInput) && u.profiles == [])
  {
  }

  /** `result.detail || fallback`, where only an object carries a detail. */
  function DetailOr(body: ReplyBody, fallback: string): (r: string)
    ensures body.Object? && body.detail != [] ==> r == body.detail
    ensures !(body.Object? && body.detail != []) ==> r == fallback
  {
    if body.Object? then MessageOr(body.detail, fallback) else fallback
  }

  /** The alert of a failed action: the thrown message, or the detail of a
      non-OK reply. */
  function ActionAlert(res: Fetched<ReplyBody>, fallback: string): (r: string)
    requires !Succeeded(res)
    ensures res.Thrown? ==> r == "\U{274C} " + res.message
    ensures res.Response? ==> r == "\U{274C} " + DetailOr(res.body, fallback)
  {
    if res.Thrown? then "\U{274C} " + res.message else "\U{274C} " + DetailOr(res.body, fallback)
  }

  /** `handleCreateProfile`: a string result (JSON or plain text) is an error
      whatever the status, and is checked before `res.ok`. */
  function CreateStep(s: Screen, res: Fetched<ReplyBody>): (r: (Effect, Screen))
    ensures !r.1.actionLoading
    ensures r.0.refetch <==> Succeeded(res) && !res.body.Text?
    ensures r.0.refetch ==>
              r == (Effect(true, Some("\U{2705} User profile created successfully!")),
                    s.(newName := "", openDialog := false, actionLoading := false))
    ensures !r.0.refetch ==> r.1 == s.(actionLoading := false)
    ensures res.Response? && res.body.Text? ==> r.0.alert == Some("\U{274C} " + res.body.s)
    ensures !Succeeded(res) && !(res.Response? && res.body.Text?) ==>
              r.0.alert == Some(ActionAlert(res, "Failed to create profile"))
  {
    match res
    case Thrown(m) => (Effect(false, Some("\U{274C} " + m)), s.(actionLoading := false))
    case Response(ok, _, _, body) =>
      if body.Text? then (Effect(false, Some("\U{274C} " + body.s)), s.(actionLoading := false))
      else if !ok then
        (Effect(false, Some("\U{274C} " + DetailOr(body, "Failed to create profile"))), s.(actionLoading := false))
      else
        (Effect(true, Some("\U{2705} User profile created successfully!")),
         s.(newName := "", openDialog := false, actionLoading := false))
  }

  /** The rename PUT of `handleUpdateProfile`: the profile's id and its
      edited name. */
  datatype RenameCall = RenameCall(id: int, name: string)

  /** `handleUpdateProfile`: nothing without a selected profile; otherwise
      the PUT, whose success closes the dialog. */
  function UpdateStep(s: Screen, res: Fetched<ReplyBody>): (r: (Option<RenameCall>, Effect, Screen))
    ensures s.selected.None? ==> r == (None, Effect(false, None), s)
    ensures s.selected.Some? ==>
              && r.0 == Some(RenameCall(s.selected.value.id, s.selected.value.name))
              && !r.2.actionLoading
              && (r.1.refetch <==> Succeeded(res))
    ensures s.selected.Some? && Succeeded(res) ==>
              r.1.alert == Some("\U{2705} Profile renamed to \"" + s.selected.value.name + "\" successfully!")
              && r.2 == s.(editDialog := false, selected := None, actionLoading := false)
    ensures s.selected.Some? && !Succeeded(res) ==>
              r.1.alert == Some(ActionAlert(res, "Failed to update profile")) && r.2 == s.(actionLoading := false)
  {
    if s.selected.None? then (None, Effect(false, None), s)
    else
      var p := s.selected.value;
      if Succeeded(res) then
        (Some(RenameCall(p.id, p.name)), Effect(true, Some("\U{2705} Profile renamed to \"" + p.name + "\" successfully!")),
         s.(editDialog := false, selected := None, actionLoading := false))
      else
        (Some(RenameCall(p.id, p.name)), Effect(false, Some(ActionAlert(res, "Failed to update profile"))),
         s.(actionLoading := false))
  }

  /** `handleSuspend`, which asks first, and `handleReactivate`, which does
      not: whether the PUT was sent, and its effect. */
  function SuspendStep(s: Screen, p: Profile, confirmed: bool, res: Fetched<ReplyBody>): (r: (bool, Effect, Screen))
    ensures !confirmed ==> r == (false, Effect(false, None), s)
    ensures confirmed ==> r.0 && !r.2.actionLoading && r.2 == s.(actionLoading := false)
    ensures confirmed ==> (r.1.refetch <==> Succeeded(res))
    ensures confirmed && Succeeded(res) ==> r.1.alert == Some("\U{1F7E0} \"" + p.name + "\" has been suspended.")
    ensures confirmed && !Succeeded(res) ==> r.1.alert == Some(ActionAlert(res, "Failed to suspend profile"))
  {
    if !confirmed then (false, Effect(false, None), s)
    else if Succeeded(res) then
      (true, Effect(true, Some("\U{1F7E0} \"" + p.name + "\" has been suspended.")), s.(actionLoading := false))
    else (true, Effect(false, Some(ActionAlert(res, "Failed to suspend profile"))), s.(actionLoading := false))
  }

  function ReactivateStep(s: Screen, p: Profile, res: Fetched<ReplyBody>): (r: (Effect, Screen))
    ensures r.1 == s.(actionLoading := false)
    ensures r.0.refetch <==> Succeeded(res)
    ensures Succeeded(res) ==> r.0.alert == Some("\U{2705} \"" + p.name + "\" has been reactivated.")
    ensures !Succeeded(res) ==> r.0.alert == Some(ActionAlert(res, "Failed to reactivate profile"))
  {
    if Succeeded(res) then (Effect(true, Some("\U{2705} \"" + p.name + "\" has been reactivated.")), s.(actionLoading := false))
    else (Effect(false, Some(ActionAlert(res, "Failed to reactivate profile"))), s.(actionLoading := false))
  }

  /** The Edit button is enabled only for an active profile and while no
      action is in flight. */
  predicate EditEnabled(p: Profile, actionLoading: bool) {
    p.status != "suspended" && !actionLoading
  }

  /** Clicking Edit, which does nothing while the button is disabled. */
  function ClickEdit(s: Screen, p: Profile): (u: Screen)
    ensures EditEnabled(p, s.actionLoading) ==> u == s.(selected := Some(p), editDialog := true)
    ensures !EditEnabled(p, s.actionLoading) ==> u == s
  {
    if EditEnabled(p, s.actionLoading) then s.(selected := Some(p), editDialog := true) else s
  }

  /** The rename dialog is never opened on a suspended profile, and never
      while another action is in flight. */
  lemma EditNeverOpensOnSuspended(s: Screen, p: Profile)
    requires !s.editDialog
    ensures ClickEdit(s, p).editDialog ==> p.status != "suspended" && !s.actionLoading
  {
  }

  class Page {
    var profiles: seq<Profile>
    var loading: bool
    var openDialog: bool
    var editDialog: bool
    var selected: Option<Profile>
    var newName: string
    var searchInput: string
    var actionLoading: bool

    function State(): Screen
      reads this
    {
      Screen(profiles, loading, openDialog, editDialog, selected, newName, searchInput, actionLoading)
    }

    constructor ()
      ensures State() == Screen([], false, false, false, None, "", "", false)
    {
      profiles, loading, openDialog, editDialog := [], false, false, false;
      selected, newName, searchInput, actionLoading := None, "", "", false;
    }

    method FetchProfiles(res: Fetched<seq<Profile>>) returns (alert: Option<string>)
      modifies this
      ensures (alert, State()) == AfterFetch(old(State()), res)
    {
      loading := true;
      alert := None;
      if Succeeded(res) {
        profiles := res.body;
      } else {
        alert := Some(LoadFailed);
      }
      loading := false;
    }

    method HandleSearch(res: Fetched<seq<Profile>>) returns (alert: Option<string>)
      modifies this
      ensures (alert, State()) == SearchStep(old(State()), res)
    {
      if IsBlank(searchInput) {
        alert := FetchProfiles(res);
        return;
      }
      loading := true;
      alert := None;
      if res.Response? && res.status == 404 {
        alert := Some("\U{26A0}\U{FE0F} No profiles found matching \"" + searchInput + "\".");
        profiles := [];
      } else if !Succeeded(res) {
        alert := Some(SearchFailed);
      } else {
        profiles := res.body;
      }
      loading := false;
    }

    method HandleCreateProfile(res: Fetched<ReplyBody>) returns (e: Effect)
      modifies this
      ensures (e, State()) == CreateStep(old(State()), res)
    {
      actionLoading := true;
      if res.Thrown? {
        e := Effect(false, Some("\U{274C} " + res.message));
      } else if res.body.Text? {
        e := Effect(false, Some("\U{274C} " + res.body.s));
      } else if !res.ok {
        e := Effect(false, Some("\U{274C} " + DetailOr(res.body, "Failed to create profile")));
      } else {
        e := Effect(true, Some("\U{2705} User profile created successfully!"));
        newName, openDialog := "", false;
      }
      actionLoading := false;
    }

    method HandleUpdateProfile(res: Fetched<ReplyBody>) returns (call: Option<RenameCall>, e: Effect)
      modifies this
      ensures (call, e, State()) == UpdateStep(old(State()), res)
    {
      if selected.None? {
        return None, Effect(false, None);
      }
      var p := selected.value;
      actionLoading := true;
      call := Some(RenameCall(p.id, p.name));
      if Succeeded(res) {
        e := Effect(true, Some("\U{2705} Profile renamed to \"" + p.name + "\" successfully!"));
        editDialog, selected := false, None;
      } else {
        e := Effect(false, Some(ActionAlert(res, "Failed to update profile")));
      }
      actionLoading := false;
    }

    method HandleSuspend(p: Profile, confirmed: bool, res: Fetched<ReplyBody>) returns (sent: bool, e: Effect)
      modifies this
      ensures (sent, e, State()) == SuspendStep(old(State()), p, confirmed, res)
    {
      if !confirmed {
        return false, Effect(false, None);
      }
      actionLoading, sent := true, true;
      if Succeeded(res) {
        e := Effect(true, Some("\U{1F7E0} \"" + p.name + "\" has been suspended."));
      } else {
        e := Effect(false, Some(ActionAlert(res, "Failed to suspend profile")));
      }
      actionLoading := false;
    }

    method HandleReactivate(p: Profile, res: Fetched<ReplyBody>) returns (e: Effect)
      modifies this
      ensures (e, State()) == ReactivateStep(old(State()), p, res)
    {
      actionLoading := true;
      if Succeeded(res) {
        e := Effect(true, Some("\U{2705} \"" + p.name + "\" has been reactivated."));
      } else {
        e := Effect(false, Some(ActionAlert(res, "Failed to reactivate profile")));
      }
      actionLoading := false;
    }

    method OnEditClick(p: Profile)
      modifies this
      ensures State() == ClickEdit(old(State()), p)
    {
      if p.status != "suspended" && !actionLoading {
        selected, editDialog := Some(p), true;
      }
    }
  }
}
