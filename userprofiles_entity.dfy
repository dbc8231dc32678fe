/** The user profile operations of the user admin: list, create, rename,
    suspend (which unlinks every account holding the profile as its role),
    reactivate (which does not relink them) and search by name. The
    duplicate checks compare names exactly, unlike the category checks. */
module UserProfilesEntity {
  import opened Common
  import opened Seqs
  import opened Models

  datatype ProfileRow = ProfileRow(id: int, name: string, status: string)

  function RowId(p: ProfileRow): int { p.id }

  predicate IsRowOf(t: Tables, p: ProfileRow) {
    p.id in t.profiles && p == ProfileRow(p.id, t.profiles[p.id].name, t.profiles[p.id].status)
  }

  /** All profiles ordered by id. */
  function GetUserProfiles(t: Tables): (rows: seq<ProfileRow>)
    requires Consistent(t)
    ensures IncreasingBy(rows, RowId)
    ensures forall p | p in rows :: IsRowOf(t, p)
    ensures forall k | k in t.profiles :: exists p | p in rows :: p.id == k
  {
    var ids := IdsUpTo(t.profiles.Keys, t.nextProfileId);
    var rows := seq(|ids|, i requires 0 <= i < |ids| =>
                  ProfileRow(ids[i], t.profiles[ids[i]].name, t.profiles[ids[i]].status));
    forall k | k in t.profiles ensures exists p | p in rows :: p.id == k {
      var i :| 0 <= i < |ids| && ids[i] == k;
      assert rows[i].id == k;
    }
    rows
  }

  /** Some profile other than `except` has exactly this name. */
  predicate ProfileNameUsed(t: Tables, name: string, except: int) {
    exists k | k in t.profiles :: k != except && t.profiles[k].name == name
  }

  /** No two profiles share a name: the schema does not demand it, the
      operations below keep it. */
  ghost predicate ProfileNamesDistinct(t: Tables) {
    forall i, j | i in t.profiles && j in t.profiles && i != j ::
      t.profiles[i].name != t.profiles[j].name
  }

  // ---------------------------------------------------------------------
  // create_user_profile
  // ---------------------------------------------------------------------

  /** `profile_data.get("status", "active")`; a JSON null is left out of the
      insert, so the column default "active" applies to it as well. */
  function StatusOrActive(status: JsonField<string>): string {
    if status.Present? then status.value else Active
  }

  function CreateUserProfile(t: Tables, name: Option<string>, status: JsonField<string>): (o: Outcome)
    requires Consistent(t)
    ensures Consistent(o.tables)
    ensures o.reply != Ok ==> o.tables == t
    ensures name.Some? && ProfileNameUsed(t, name.value, 0) ==>
              o.reply == Err("Profile with name '" + name.value + "' already exists.")
    ensures name.None? ==> o.reply == Fail("Failed to create user profile : ")
    ensures o.reply == Ok <==> name.Some? && !ProfileNameUsed(t, name.value, 0)
    ensures o.reply == Ok ==>
              var id := t.nextProfileId;
              && id !in t.profiles
              && o.tables.profiles == t.profiles[id := Profile(name.value, StatusOrActive(status))]
              && o.tables == t.(profiles := o.tables.profiles, nextProfileId := id + 1)
  {
    if name.Some? && ProfileNameUsed(t, name.value, 0) then
      Outcome(Err("Profile with name '" + name.value + "' already exists."), t)
    else if name.None? then Outcome(Fail("Failed to create user profile : "), t)
    else Outcome(Ok, InsertProfile(t, Profile(name.value, StatusOrActive(status))))
  }

  method ApplyCreateUserProfile(db: Db, name: Option<string>, status: JsonField<string>)
    returns (r: Reply)
    requires db.Valid()
    modifies db
    ensures Outcome(r, db.State()) == CreateUserProfile(old(db.State()), name, status)
    ensures db.Valid()
  {
    var t := db.State();
    if name.Some? && ProfileNameUsed(db.State(), name.value, 0) {
      return Err("Profile with name '" + name.value + "' already exists.");
    }
    if name.None? {
      return Fail("Failed to create user profile : ");
    }
    db.Store(InsertProfile(t, Profile(name.value, StatusOrActive(status))));
    r := Ok;
  }

  // ---------------------------------------------------------------------
  // update_user_profile
  // ---------------------------------------------------------------------

  function UpdateUserProfile(t: Tables, profileId: int, name: Option<string>): (o: Outcome)
    requires Consistent(t)
    ensures Consistent(o.tables)
    ensures o.reply != Ok ==> o.tables == t
    ensures o.reply.Ok? || o.reply.Err?
    ensures profileId !in t.profiles ==> o.reply == Err("User profile not found")
    ensures profileId in t.profiles && !StrTruthy(name) ==> o.reply == Err("No name provided for update")
    ensures profileId in t.profiles && StrTruthy(name) && ProfileNameUsed(t, name.value, profileId) ==>
              o.reply == Err("Profile name '" + name.value + "' already exists.")
    ensures o.reply == Ok <==>
              profileId in t.profiles && StrTruthy(name) && !ProfileNameUsed(t, name.value, profileId)
    ensures o.reply == Ok ==>
              profileId in t.profiles &&
              o.tables == t.(profiles := t.profiles[profileId :=
                                t.profiles[profileId].(name := name.value)])
  {
    if profileId !in t.profiles then Outcome(Err("User profile not found"), t)
    else if !StrTruthy(name) then Outcome(Err("No name provided for update"), t)
    else if ProfileNameUsed(t, name.value, profileId) then
      Outcome(Err("Profile name '" + name.value + "' already exists."), t)
    else Outcome(Ok, PutProfile(t, profileId, t.profiles[profileId].(name := name.value)))
  }

  method ApplyUpdateUserProfile(db: Db, profileId: int, name: Option<string>) returns (r: Reply)
    requires db.Valid()
    modifies db
    ensures Outcome(r, db.State()) == UpdateUserProfile(old(db.State()), profileId, name)
    ensures db.Valid()
  {
    if profileId !in db.profiles {
      return Err("User profile not found");
    }
    if !StrTruthy(name) {
      return Err("No name provided for update");
    }
    if ProfileNameUsed(db.State(), name.value, profileId) {
      return Err("Profile name '" + name.value + "' already exists.");
    }
    var profile := db.profiles[profileId];
    db.profiles := db.profiles[profileId := profile.(name := name.value)];
    r := Ok;
  }

  /** Creating a profile keeps profile names distinct. */
  lemma CreateKeepsNamesDistinct(t: Tables, name: Option<string>, status: JsonField<string>)
    requires Consistent(t) && ProfileNamesDistinct(t)
    ensures ProfileNamesDistinct(CreateUserProfile(t, name, status).tables)
  {
    var o := CreateUserProfile(t, name, status);
    if o.reply == Ok {
      var u := o.tables;
      forall i, j | i in u.profiles && j in u.profiles && i != j
        ensures u.profiles[i].name != u.profiles[j].name
      {
        if j == t.nextProfileId {
          assert i != 0 && i in t.profiles && i != t.nextProfileId;
        } else if i == t.nextProfileId {
          assert j != 0 && j in t.profiles;
        }
      }
    }
  }

  /** Renaming a profile keeps profile names distinct. */
  lemma RenameKeepsNamesDistinct(t: Tables, profileId: int, name: Option<string>)
    requires Consistent(t) && ProfileNamesDistinct(t)
    ensures ProfileNamesDistinct(UpdateUserProfile(t, profileId, name).tables)
  {
    var o := UpdateUserProfile(t, profileId, name);
    if o.reply == Ok {
      var v := o.tables;
      forall i, j | i in v.profiles && j in v.profiles && i != j
        ensures v.profiles[i].name != v.profiles[j].name
      {
        if j == profileId {
          assert i in t.profiles && i != profileId;
        } else if i == profileId {
          assert j in t.profiles && j != profileId;
        }
      }
    }
  }


  // ---------------------------------------------------------------------
  // suspend_user_profile and reactivate_user_profile
  // ---------------------------------------------------------------------

  /** The accounts after every account holding the profile as its role has
      lost it. */
  function Unlinked(t: Tables, profileId: int): (accs: map<int, Account>)
    ensures accs.Keys == t.accounts.Keys
    ensures forall k | k in t.accounts ::
              accs[k] == if t.accounts[k].role == Some(profileId)
                         then t.accounts[k].(role := None) else t.accounts[k]
  {
    map k | k in t.accounts ::
      if t.accounts[k].role == Some(profileId) then t.accounts[k].(role := None) else t.accounts[k]
  }

  /** Setting a profile's status and unlinking its accounts keeps the
      constraints. */
  lemma SuspendedConsistent(t: Tables, profileId: int, u: Tables)
    requires Consistent(t) && profileId in t.profiles
    requires u == t.(profiles := t.profiles[profileId := t.profiles[profileId].(status := Suspended)],
                     accounts := Unlinked(t, profileId))
    ensures Consistent(u)
  {
    forall k | k in u.accounts ensures RefOk(u.accounts[k].role, u.profiles) {
      assert RefOk(t.accounts[k].role, t.profiles);
    }
    forall i, j | i in u.accounts && j in u.accounts && i != j
      ensures u.accounts[i].username != u.accounts[j].username
      ensures u.accounts[i].email != u.accounts[j].email
    {
      assert u.accounts[i].username == t.accounts[i].username;
      assert u.accounts[j].username == t.accounts[j].username;
      assert u.accounts[i].email == t.accounts[i].email;
      assert u.accounts[j].email == t.accounts[j].email;
    }
  }

  function SuspendUserProfile(t: Tables, profileId: int): (o: Outcome)
    requires Consistent(t)
    ensures Consistent(o.tables)
    ensures o.reply != Ok ==> o.tables == t
    ensures profileId !in t.profiles ==> o.reply == Err("User profile not found")
    ensures profileId in t.profiles && t.profiles[profileId].status == Suspended ==>
              o.reply == Err("Profile '" + t.profiles[profileId].name + "' is already suspended.")
    ensures o.reply == Ok <==> profileId in t.profiles && t.profiles[profileId].status != Suspended
    ensures o.reply == Ok ==>
              && profileId in o.tables.profiles
              && o.tables.profiles == t.profiles[profileId := t.profiles[profileId].(status := Suspended)]
              && o.tables.accounts.Keys == t.accounts.Keys
              && (forall k | k in t.accounts && t.accounts[k].role == Some(profileId) ::
                    o.tables.accounts[k] == t.accounts[k].(role := None))
              && (forall k | k in t.accounts && t.accounts[k].role != Some(profileId) ::
                    o.tables.accounts[k] == t.accounts[k])
              && o.tables == t.(profiles := o.tables.profiles, accounts := o.tables.accounts)
  {
    if profileId !in t.profiles then Outcome(Err("User profile not found"), t)
    else
      var profile := t.profiles[profileId];
      if profile.status == Suspended then
        Outcome(Err("Profile '" + profile.name + "' is already suspended."), t)
      else
        var u := t.(profiles := t.profiles[profileId := profile.(status := Suspended)],
                    accounts := Unlinked(t, profileId));
        SuspendedConsistent(t, profileId, u);
        Outcome(Ok, u)
  }

  /** The ids of the accounts holding a profile as their role, in id order. */
  function AffectedAccounts(t: Tables, profileId: int): (ids: seq<int>)
    requires Consistent(t)
    ensures forall k :: k in ids <==> k in t.accounts && t.accounts[k].role == Some(profileId)
  {
    Filter(IdsUpTo(t.accounts.Keys, t.nextAccountId),
           k => k in t.accounts && t.accounts[k].role == Some(profileId))
  }

  /** The loop of `suspend_user_profile`: `acc.role = None` for each affected account. */
  method ClearRole(accounts: map<int, Account>, affected: seq<int>, profileId: int)
    returns (accs: map<int, Account>)
    requires forall k :: k in affected <==> k in accounts && accounts[k].role == Some(profileId)
    ensures accs.Keys == accounts.Keys
    ensures forall k | k in accounts ::
              accs[k] == if accounts[k].role == Some(profileId)
                         then accounts[k].(role := None) else accounts[k]
  {
    accs := accounts;
    for i := 0 to |affected|
      invariant accs.Keys == accounts.Keys
      invariant forall k | k in accounts ::
                  accs[k] == if k in affected[..i] then accounts[k].(role := None) else accounts[k]
    {
      var k := affected[i];
      assert affected[..i + 1] == affected[..i] + [k];
      accs := accs[k := accs[k].(role := None)];
    }
    assert affected[..|affected|] == affected;
  }

  method ApplySuspendUserProfile(db: Db, profileId: int) returns (r: Reply)
    requires db.Valid()
    modifies db
    ensures Outcome(r, db.State()) == SuspendUserProfile(old(db.State()), profileId)
    ensures db.Valid()
  {
    if profileId !in db.profiles {
      return Err("User profile not found");
    }
    var profile := db.profiles[profileId];
    if profile.status == Suspended {
      return Err("Profile '" + profile.name + "' is already suspended.");
    }
    var t := db.State();
    var affected := AffectedAccounts(t, profileId);
    var accounts := ClearRole(t.accounts, affected, profileId);
    var u := t.(profiles := t.profiles[profileId := profile.(status := Suspended)], accounts := accounts);
    ProfileSuspended(t, profileId, u);
    db.Store(u);
    r := Ok;
  }

  /** A database with the profile's status set and its accounts unlinked is
      the one SuspendUserProfile describes. */
  lemma ProfileSuspended(t: Tables, profileId: int, u: Tables)
    requires Consistent(t) && profileId in t.profiles && t.profiles[profileId].status != Suspended
    requires u.accounts.Keys == t.accounts.Keys
    requires forall k | k in t.accounts ::
               u.accounts[k] == if t.accounts[k].role == Some(profileId)
                                then t.accounts[k].(role := None) else t.accounts[k]
    requires u == t.(profiles := t.profiles[profileId := t.profiles[profileId].(status := Suspended)],
                     accounts := u.accounts)
    ensures SuspendUserProfile(t, profileId) == Outcome(Ok, u)
    ensures Consistent(u)
  {
    var d := Unlinked(t, profileId);
    assert forall k | k in u.accounts :: u.accounts[k] == d[k];
    assert u.accounts == d;
  }

  function ReactivateUserProfile(t: Tables, profileId: int): (o: Outcome)
    requires Consistent(t)
    ensures Consistent(o.tables)
    ensures o.reply != Ok ==> o.tables == t
    ensures profileId !in t.profiles ==> o.reply == Err("User profile not found")
    ensures profileId in t.profiles && t.profiles[profileId].status == Active ==>
              o.reply == Err("Profile '" + t.profiles[profileId].name + "' is already active.")
    ensures o.reply == Ok <==> profileId in t.profiles && t.profiles[profileId].status != Active
    ensures o.reply == Ok ==>
              profileId in t.profiles &&
              o.tables == t.(profiles := t.profiles[profileId :=
                                t.profiles[profileId].(status := Active)])
  {
    if profileId !in t.profiles then Outcome(Err("User profile not found"), t)
    else
      var profile := t.profiles[profileId];
      if profile.status == Active then
        Outcome(Err("Profile '" + profile.name + "' is already active."), t)
      else Outcome(Ok, PutProfile(t, profileId, profile.(status := Active)))
  }

  method ApplyReactivateUserProfile(db: Db, profileId: int) returns (r: Reply)
    requires db.Valid()
    modifies db
    ensures Outcome(r, db.State()) == ReactivateUserProfile(old(db.State()), profileId)
    ensures db.Valid()
  {
    if profileId !in db.profiles {
      return Err("User profile not found");
    }
    var profile := db.profiles[profileId];
    if profile.status == Active {
      return Err("Profile '" + profile.name + "' is already active.");
    }
    db.profiles := db.profiles[profileId := profile.(status := Active)];
    r := Ok;
  }

  /** Suspending an active profile and reactivating it brings its status
      back, but the accounts that lost the role do not get it back: after
      the round trip no account holds the profile. */
  lemma SuspendThenReactivateDoesNotRelink(t: Tables, profileId: int)
    requires Consistent(t) && profileId in t.profiles
    requires t.profiles[profileId].status == Active
    ensures SuspendUserProfile(t, profileId).reply == Ok
    ensures var u := SuspendUserProfile(t, profileId).tables;
            var v := ReactivateUserProfile(u, profileId);
            && v.reply == Ok
            && v.tables.profiles == t.profiles
            && forall k | k in v.tables.accounts :: v.tables.accounts[k].role != Some(profileId)
  {
    var u := SuspendUserProfile(t, profileId).tables;
    var v := ReactivateUserProfile(u, profileId).tables;
    assert v.profiles[profileId] == t.profiles[profileId];
    assert v.profiles == t.profiles;
  }

  // ---------------------------------------------------------------------
  // search_user_profiles
  // ---------------------------------------------------------------------

  /** `ILIKE '%input%'` with the input as given (not stripped). */
  predicate ProfileMatches(p: ProfileRow, input: string) {
    Contains(Lower(p.name), Lower(input))
  }

  function SearchUserProfiles(t: Tables, input: string): (rows: seq<ProfileRow>)
    requires Consistent(t)
    ensures IncreasingBy(rows, RowId)
    ensures forall p | p in rows :: IsRowOf(t, p) && ProfileMatches(p, input)
    ensures forall p | p in GetUserProfiles(t) && ProfileMatches(p, input) :: p in rows
  {
    var all := GetUserProfiles(t);
    FilterIncreasing(all, p => ProfileMatches(p, input), RowId);
    Filter(all, p => ProfileMatches(p, input))
  }

  /** The empty input matches every name, so it lists all profiles. */
  lemma EmptySearchListsAll(t: Tables)
    requires Consistent(t)
    ensures SearchUserProfiles(t, "") == GetUserProfiles(t)
  {
    var all := GetUserProfiles(t);
    forall p | p in all ensures ProfileMatches(p, "") {
      ContainsEmpty(Lower(p.name));
    }
    FilterAll(all, p => ProfileMatches(p, ""));
  }
}
