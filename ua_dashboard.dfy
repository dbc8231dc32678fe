/** The user-admin dashboard: the accounts sorted by id, the active,
    suspended and per-role counters, role-name resolution, the role
    conversion of the edit form, search and reset, and suspend/reactivate. */
module UaDashboard {
  import opened Common
  import opened Seqs
  import opened Client

  /** An account's `role` as the page may find it: absent or null, a number,
      a string, an object with a `name` ("" when it has none), or anything
      else. */
  datatype RoleValue = NoRole | RoleNumber(n: int) | RoleText(s: string) | RoleObject(name: string) | OtherRole

  datatype User = User(id: int, username: string, status: string, role: RoleValue)

  /** A row of the profiles listing the role map is built from. */
  datatype ProfileItem = ProfileItem(id: int, name: string)

  /** JavaScript truthiness of a role. */
  predicate RoleTruthy(role: RoleValue) {
    match role
    case NoRole => false
    case RoleNumber(n) => n != 0
    case RoleText(s) => s != []
    case _ => true
  }

  // ---------------------------------------------------------------------
  // The role map
  // ---------------------------------------------------------------------

  /** One property of the `roleMap` object. */
  datatype RoleEntry = RoleEntry(id: int, name: string)

  /** The role map is an object with integer keys, which JavaScript
      enumerates in ascending key order; it is modelled as its entries in
      that order. */
  predicate Ordered(m: seq<RoleEntry>) {
    forall i, j | 0 <= i < j < |m| :: m[i].id < m[j].id
  }

  /** `roleMap[id]`, or None when the key is absent. */
  function Lookup(m: seq<RoleEntry>, id: int): (r: Option<string>)
    ensures r.Some? <==> exists i | 0 <= i < |m| :: m[i].id == id
    ensures r.Some? ==> exists i | 0 <= i < |m| :: m[i] == RoleEntry(id, r.value)
  {
    if m == [] then None
    else if m[0].id == id then Some(m[0].name)
    else
      var r := Lookup(m[1..], id);
      assert forall i | 0 <= i < |m| - 1 :: m[1..][i] == m[i + 1];
      assert r.Some? ==> exists i | 0 <= i < |m| :: m[i].id == id && m[i] == RoleEntry(id, r.value) by {
        if r.Some? {
          var i :| 0 <= i < |m| - 1 && m[1..][i] == RoleEntry(id, r.value);
          assert m[i + 1] == RoleEntry(id, r.value);
        }
      }
      r
  }

  /** Looking up in a list with a first entry `e`. */
  lemma LookupCons(e: RoleEntry, m: seq<RoleEntry>, k: int)
    ensures Lookup([e] + m, k) == if e.id == k then Some(e.name) else Lookup(m, k)
  {
    assert ([e] + m)[1..] == m;
  }

  /** What `Assign` promises of its result `r`. */
  ghost predicate AssignedTo(m: seq<RoleEntry>, id: int, name: string, r: seq<RoleEntry>) {
    && Ordered(r)
    && Lookup(r, id) == Some(name)
    && (forall k | k != id :: Lookup(r, k) == Lookup(m, k))
    && (forall i | 0 <= i < |r| :: r[i].id == id || r[i] in m)
  }

  /** Replacing the first entry, which holds the key. */
  lemma AssignAtHead(m: seq<RoleEntry>, id: int, name: string)
    requires Ordered(m) && m != [] && m[0].id == id
    ensures AssignedTo(m, id, name, [RoleEntry(id, name)] + m[1..])
  {
    var r := [RoleEntry(id, name)] + m[1..];
    assert m == [m[0]] + m[1..];
    forall k | k != id ensures Lookup(r, k) == Lookup(m, k) {
      LookupCons(RoleEntry(id, name), m[1..], k);
      LookupCons(m[0], m[1..], k);
    }
    LookupCons(RoleEntry(id, name), m[1..], id);
  }

  /** Inserting before the first entry, whose key is larger. */
  lemma AssignBefore(m: seq<RoleEntry>, id: int, name: string)
    requires Ordered(m) && (m == [] || id < m[0].id)
    ensures AssignedTo(m, id, name, [RoleEntry(id, name)] + m)
  {
    assert forall i | 0 <= i < |m| :: id < m[i].id;
    var r := [RoleEntry(id, name)] + m;
    forall k | k != id ensures Lookup(r, k) == Lookup(m, k) {
      LookupCons(RoleEntry(id, name), m, k);
    }
    LookupCons(RoleEntry(id, name), m, id);
  }

  /** Keeping the first entry, whose key is smaller, before the rest. */
  lemma AssignAfter(m: seq<RoleEntry>, id: int, name: string, rest: seq<RoleEntry>)
    requires Ordered(m) && m != [] && m[0].id < id
    requires AssignedTo(m[1..], id, name, rest)
    ensures AssignedTo(m, id, name, [m[0]] + rest)
  {
    forall i | 0 <= i < |rest| ensures m[0].id < rest[i].id {
      if rest[i].id != id {
        assert rest[i] in m[1..];
      }
    }
    var r := [m[0]] + rest;
    assert m == [m[0]] + m[1..];
    forall k | k != id ensures Lookup(r, k) == Lookup(m, k) {
      LookupCons(m[0], rest, k);
      LookupCons(m[0], m[1..], k);
    }
    LookupCons(m[0], rest, id);
  }

  /** `roleMap[id] = name`: the key now holds the name and no other key changes. */
  function Assign(m: seq<RoleEntry>, id: int, name: string): (r: seq<RoleEntry>)
    requires Ordered(m)
    ensures Ordered(r)
    ensures Lookup(r, id) == Some(name)
    ensures forall k | k != id :: Lookup(r, k) == Lookup(m, k)
    ensures forall i | 0 <= i < |r| :: r[i].id == id || r[i] in m
  {
    if m == [] || id < m[0].id then
      AssignBefore(m, id, name);
      [RoleEntry(id, name)] + m
    else if m[0].id == id then
      AssignAtHead(m, id, name);
      [RoleEntry(id, name)] + m[1..]
    else
      var rest := Assign(m[1..], id, name);
      AssignAfter(m, id, name, rest);
      [m[0]] + rest
  }

  /** The upper-cased name of the last profile with that id: the value a
      run of assignments in listing order leaves behind. */
  function LastName(profiles: seq<ProfileItem>, id: int): Option<string>
    decreases |profiles|
  {
    if profiles == [] then None
    else if profiles[|profiles| - 1].id == id then Some(Upper(profiles[|profiles| - 1].name))
    else LastName(profiles[..|profiles| - 1], id)
  }

  /** `fetchRoles`: `map[r.id] = r.name.toUpperCase()` for every row in turn. */
  method BuildRoleMap(profiles: seq<ProfileItem>) returns (m: seq<RoleEntry>)
    ensures Ordered(m)
    ensures forall k :: Lookup(m, k) == LastName(profiles, k)
  {
    m := [];
    for i := 0 to |profiles|
      invariant Ordered(m)
      invariant forall k :: Lookup(m, k) == LastName(profiles[..i], k)
    {
      assert profiles[..i + 1][..i] == profiles[..i];
      m := Assign(m, profiles[i].id, Upper(profiles[i].name));
    }
    assert profiles[..|profiles|] == profiles;
  }

  /** Every listed profile has an entry. */
  lemma {:induction false} EveryProfileHasAnEntry(profiles: seq<ProfileItem>, k: int)
    requires exists p | p in profiles :: p.id == k
    ensures LastName(profiles, k).Some?
    decreases |profiles|
  {
    var last := profiles[|profiles| - 1];
    if last.id != k {
      var p :| p in profiles && p.id == k;
      assert profiles == profiles[..|profiles| - 1] + [last];
      assert p in profiles[..|profiles| - 1];
      EveryProfileHasAnEntry(profiles[..|profiles| - 1], k);
    }
  }

  /** `getRoleName`. */
  function RoleName(roleMap: seq<RoleEntry>, role: RoleValue): (r: string)
    ensures !RoleTruthy(role) ==> r == "UNASSIGNED"
    ensures role.RoleObject? && role.name != [] ==> r == Upper(role.name)
    ensures role.RoleNumber? && role.n != 0 ==>
              r == (match Lookup(roleMap, role.n)
                    case Some(name) => if name != [] then name else "ROLE #" + IntToString(role.n)
                    case None => "ROLE #" + IntToString(role.n))
    ensures role.RoleText? && role.s != [] ==> r == Upper(role.s)
    ensures role.OtherRole? || role == RoleObject([]) ==> r == "UNKNOWN"
  {
    if !RoleTruthy(role) then "UNASSIGNED"
    else match role
      case RoleObject(name) => if name != [] then Upper(name) else "UNKNOWN"
      case RoleNumber(n) =>
        (match Lookup(roleMap, n)
         case Some(name) => if name != [] then name else "ROLE #" + IntToString(n)
         case None => "ROLE #" + IntToString(n))
      case RoleText(s) => Upper(s)
      case _ => "UNKNOWN"
  }

  /** `Object.entries(roleMap).find(([, name]) => name === target)`. */
  function FindByName(m: seq<RoleEntry>, target: string): (r: Option<int>)
    ensures r.None? <==> forall i | 0 <= i < |m| :: m[i].name != target
    ensures r.Some? ==> exists i | 0 <= i < |m| ::
              && m[i] == RoleEntry(r.value, target)
              && forall j | 0 <= j < i :: m[j].name != target
  {
    if m == [] then None
    else if m[0].name == target then Some(m[0].id)
    else
      var r := FindByName(m[1..], target);
      assert forall i | 0 <= i < |m| - 1 :: m[1..][i] == m[i + 1];
      assert r.Some? ==> exists i | 0 <= i < |m| :: m[i] == RoleEntry(r.value, target)
                                                    && forall j | 0 <= j < i :: m[j].name != target by {
        if r.Some? {
          var i :| 0 <= i < |m| - 1 && m[1..][i] == RoleEntry(r.value, target)
                   && forall j | 0 <= j < i :: m[1..][j].name != target;
          assert forall j | 1 <= j < i + 1 :: m[j].name != target by {
            forall j | 1 <= j < i + 1 ensures m[j].name != target {
              assert m[1..][j - 1] == m[j];
            }
          }
        }
      }
      r
  }

  /** The role id `UpdateUser` sends: for a non-empty string, the key of the
      first entry whose name is that string upper-cased, or null; a number
      as it is; anything else null. */
  function RoleIdFor(roleMap: seq<RoleEntry>, role: RoleValue): (r: Option<int>)
    requires Ordered(roleMap)
    ensures role.RoleText? && role.s != [] ==>
              (r.Some? <==> exists i | 0 <= i < |roleMap| :: roleMap[i].name == Upper(role.s))
    ensures role.RoleText? && role.s != [] && r.Some? ==>
              && Lookup(roleMap, r.value) == Some(Upper(role.s))
              && forall i | 0 <= i < |roleMap| && roleMap[i].name == Upper(role.s) :: r.value <= roleMap[i].id
    ensures role.RoleNumber? ==> r == Some(role.n)
    ensures !(role.RoleText? && role.s != []) && !role.RoleNumber? ==> r.None?
  {
    match role
    case RoleText(s) =>
      if s == [] then None
      else
        var r := FindByName(roleMap, Upper(s));
        assert r.Some? ==> Lookup(roleMap, r.value) == Some(Upper(s)) by {
          if r.Some? {
            var i :| 0 <= i < |roleMap| && roleMap[i] == RoleEntry(r.value, Upper(s))
                     && forall j | 0 <= j < i :: roleMap[j].name != Upper(s);
            LookupAt(roleMap, i);
          }
        }
        r
    case RoleNumber(n) => Some(n)
    case _ => None
  }

  /** In an ordered map, the entry at position i is what its key looks up. */
  lemma {:induction false} LookupAt(m: seq<RoleEntry>, i: int)
    requires Ordered(m) && 0 <= i < |m|
    ensures Lookup(m, m[i].id) == Some(m[i].name)
    decreases |m|
  {
    if i > 0 {
      assert m[0].id < m[i].id;
      assert m[1..][i - 1] == m[i];
      LookupAt(m[1..], i - 1);
    }
  }

  /** Editing a user whose role is shown by its resolved name sends back
      that role's id, as long as no smaller id carries the same name. */
  lemma {:induction false} RoleNameRoundTrip(roleMap: seq<RoleEntry>, k: int, name: string)
    requires Ordered(roleMap) && Lookup(roleMap, k) == Some(name)
    requires name != [] && Upper(name) == name
    requires forall i | 0 <= i < |roleMap| && roleMap[i].name == name :: k <= roleMap[i].id
    ensures RoleIdFor(roleMap, RoleText(name)) == Some(k)
  {
    var r := RoleIdFor(roleMap, RoleText(name));
    var i :| 0 <= i < |roleMap| && roleMap[i] == RoleEntry(k, name);
    assert r.Some?;
    var j :| 0 <= j < |roleMap| && roleMap[j] == RoleEntry(r.value, name)
             && forall l | 0 <= l < j :: roleMap[l].name != name;
    assert r.value <= k;
    assert k <= r.value;
  }

  // ---------------------------------------------------------------------
  // The counters
  // ---------------------------------------------------------------------

  predicate IsActive(u: User) { u.status == "active" }
  predicate IsSuspended(u: User) { u.status == "suspended" }

  function UserId(u: User): int { u.id }

  /** The resolved role names of a list of users. */
  function RoleNames(roleMap: seq<RoleEntry>, users: seq<User>): (r: seq<string>)
    ensures |r| == |users|
    ensures forall i | 0 <= i < |users| :: r[i] == RoleName(roleMap, users[i].role)
  {
    seq(|users|, i requires 0 <= i < |users| => RoleName(roleMap, users[i].role))
  }

  lemma TallyStep(names: seq<string>, i: nat)
    requires i < |names|
    ensures Tally(names[..i + 1]) == Bump(Tally(names[..i]), names[i])
  {
    assert names[..i + 1][..i] == names[..i];
  }

  /** The `counts` loop of the effect: one more for each active user's role name. */
  method CountRoles(roleMap: seq<RoleEntry>, active: seq<User>) returns (counts: map<string, nat>)
    ensures counts == Tally(RoleNames(roleMap, active))
  {
    ghost var names := RoleNames(roleMap, active);
    counts := map[];
    for i := 0 to |active|
      invariant counts == Tally(names[..i])
    {
      var roleName := RoleName(roleMap, active[i].role);
      TallyStep(names, i);
      assert roleName == names[i];
      counts := Bump(counts, roleName);
    }
    assert names[..|active|] == names;
  }

  /** The role counters add up to the active counter, and their keys are the
      role names of active users. */
  lemma RoleCountsSumToActive(roleMap: seq<RoleEntry>, users: seq<User>)
    ensures MapSum(Tally(RoleNames(roleMap, Filter(users, IsActive)))) == Count(users, IsActive)
    ensures forall k | k in Tally(RoleNames(roleMap, Filter(users, IsActive))) ::
              exists u | u in users :: u.status == "active" && RoleName(roleMap, u.role) == k
  {
    var names := RoleNames(roleMap, Filter(users, IsActive));
    TallySum(names);
    forall k | k in Tally(names)
      ensures exists u | u in users :: u.status == "active" && RoleName(roleMap, u.role) == k
    {
      var i :| 0 <= i < |names| && names[i] == k;
      assert Filter(users, IsActive)[i] in Filter(users, IsActive);
    }
  }

  datatype Screen = Screen(
    users: seq<User>, filteredUsers: seq<User>, roleMap: seq<RoleEntry>,
    totalUsers: nat, activeUsers: nat, suspendedUsers: nat, roleCounts: map<string, nat>,
    searchTerm: string, open: bool, loading: bool)

  /** `fetchUsers`: on success the users sorted by id, shown unfiltered and counted. */
  function AfterFetchUsers(s: Screen, res: Fetched<seq<User>>): (u: Screen)
    ensures !u.loading
    ensures Succeeded(res) ==>
              && multiset(u.users) == multiset(res.body)
              && (forall i, j | 0 <= i < j < |u.users| :: u.users[i].id <= u.users[j].id)
              && u.filteredUsers == u.users && u.totalUsers == |res.body|
              && u == s.(users := u.users, filteredUsers := u.users, totalUsers := |res.body|, loading := false)
    ensures !Succeeded(res) ==> u == s.(loading := false)
  {
    if !Succeeded(res) then s.(loading := false)
    else
      var sorted := SortBy(res.body, UserId);
      assert SortedByKey(sorted, UserId);
      s.(users := sorted, filteredUsers := sorted, totalUsers := |sorted|, loading := false)
  }

  /** The effect that recomputes the counters, which runs only once both the
      role map and the users are non-empty. */
  function Recount(s: Screen): (u: Screen)
    ensures |s.roleMap| == 0 || |s.users| == 0 ==> u == s
    ensures |s.roleMap| > 0 && |s.users| > 0 ==>
              && u.activeUsers == Count(s.users, IsActive)
              && u.suspendedUsers == Count(s.users, IsSuspended)
              && MapSum(u.roleCounts) == u.activeUsers
              && u == s.(activeUsers := u.activeUsers, suspendedUsers := u.suspendedUsers, roleCounts := u.roleCounts)
  {
    if |s.roleMap| == 0 || |s.users| == 0 then s
    else
      var counts := Tally(RoleNames(s.roleMap, Filter(s.users, IsActive)));
      RoleCountsSumToActive(s.roleMap, s.users);
      s.(activeUsers := Count(s.users, IsActive), suspendedUsers := Count(s.users, IsSuspended),
         roleCounts := counts)
  }

  /** `Recount` of a screen with roles and users, from its three counters. */
  lemma RecountIs(s: Screen, active: nat, suspended: nat, counts: map<string, nat>)
    requires |s.roleMap| > 0 && |s.users| > 0
    requires active == |Filter(s.users, IsActive)| && suspended == |Filter(s.users, IsSuspended)|
    requires counts == Tally(RoleNames(s.roleMap, Filter(s.users, IsActive)))
    ensures Recount(s) == s.(activeUsers := active, suspendedUsers := suspended, roleCounts := counts)
  {
  }

  /** Active and suspended accounts never outnumber the accounts. */
  lemma ActivePlusSuspended(users: seq<User>)
    ensures Count(users, IsActive) + Count(users, IsSuspended) <= |users|
  {
    CountSplit(users, IsActive, IsSuspended, (u: User) => IsActive(u) || IsSuspended(u));
  }

  /** The payload of `UpdateUser`: the edited account with its role converted. */
  datatype UpdateCall = UpdateCall(user: User, role: Option<int>)

  /** What a handler does after its call: whether the users are fetched
      again, what it alerts, and whether the dialog closes. */
  datatype Effect = Effect(refetch: bool, alert: Option<string>, close: bool)

  /** `UpdateUser` for the selected account, with the reply `res`. */
  function UpdateStep(roleMap: seq<RoleEntry>, selected: Option<User>, res: Fetched<ReplyBody>): (r: (Option<UpdateCall>, Effect))
    requires Ordered(roleMap)
    ensures selected.None? ==> r == (None, Effect(false, None, false))
    ensures selected.Some? ==> r.0 == Some(UpdateCall(selected.value, RoleIdFor(roleMap, selected.value.role)))
    ensures selected.Some? && res.Response? && res.body == True ==> r.1 == Effect(true, None, true)
    ensures selected.Some? && res.Response? && res.body.Text? ==> r.1 == Effect(false, Some(res.body.s), false)
    ensures selected.Some? && res.Response? && res.body != True && !res.body.Text? ==> r.1 == Effect(false, None, false)
    ensures selected.Some? && res.Thrown? ==> r.1 == Effect(false, Some("Failed to update user."), false)
    ensures r.1.refetch <==> r.1.close
  {
    if selected.None? then (None, Effect(false, None, false))
    else
      var call := UpdateCall(selected.value, RoleIdFor(roleMap, selected.value.role));
      match res
      case Thrown(_) => (Some(call), Effect(false, Some("Failed to update user."), false))
      case Response(_, _, _, body) =>
        if body == True then (Some(call), Effect(true, None, true))
        else if body.Text? then (Some(call), Effect(false, Some(body.s), false))
        else (Some(call), Effect(false, None, false))
  }

  /** The action of the status button: "suspend" for an active account,
      "reactivate" for any other. */
  function StatusAction(u: User): (a: string)
    ensures a == "suspend" <==> u.status == "active"
    ensures a == "suspend" || a == "reactivate"
  {
    if u.status == "active" then "suspend" else "reactivate"
  }

  /** `toggleUserStatus`: the PUT to `/api/users/{action}/{id}`, only once confirmed. */
  function ToggleStatusStep(u: User, confirmed: bool, res: Fetched<ReplyBody>): (r: (Option<string>, Effect))
    ensures !confirmed ==> r == (None, Effect(false, None, false))
    ensures confirmed ==> r.0 == Some(StatusAction(u))
    ensures confirmed && res.Thrown? ==> r.1 == Effect(false, Some("Failed to " + StatusAction(u) + " user."), false)
    ensures confirmed && res.Response? ==> (r.1.refetch <==> res.body == True)
    ensures confirmed && res.Response? && res.body == True ==> r.1 == Effect(true, None, false)
    ensures confirmed && res.Response? && res.body.Text? ==> r.1 == Effect(false, Some(res.body.s), false)
    ensures confirmed && res.Response? && res.body != True && !res.body.Text? ==> r.1 == Effect(false, None, false)
    ensures !r.1.close
  {
    if !confirmed then (None, Effect(false, None, false))
    else match res
      case Thrown(_) => (Some(StatusAction(u)), Effect(false, Some("Failed to " + StatusAction(u) + " user."), false))
      case Response(_, _, _, body) =>
        if body == True then (Some(StatusAction(u)), Effect(true, None, false))
        else if body.Text? then (Some(StatusAction(u)), Effect(false, Some(body.s), false))
        else (Some(StatusAction(u)), Effect(false, None, false))
  }

  class Dashboard {
    var users: seq<User>
    var filteredUsers: seq<User>
    var roleMap: seq<RoleEntry>
    var totalUsers: nat
    var activeUsers: nat
    var suspendedUsers: nat
    var roleCounts: map<string, nat>
    var searchTerm: string
    var open: bool
    var loading: bool

    function State(): Screen
      reads this
    {
      Screen(users, filteredUsers, roleMap, totalUsers, activeUsers, suspendedUsers,
             roleCounts, searchTerm, open, loading)
    }

    /** The role map stays in key order. */
    predicate Valid()
      reads this
    {
      Ordered(roleMap)
    }

    constructor ()
      ensures Valid()
      ensures State() == Screen([], [], [], 0, 0, 0, map[], "", false, false)
    {
      users, filteredUsers, roleMap := [], [], [];
      totalUsers, activeUsers, suspendedUsers, roleCounts := 0, 0, 0, map[];
      searchTerm, open, loading := "", false, false;
    }

    /** `fetchRoles`: the map replaces the old one once the listing arrives. */
    method FetchRoles(res: Fetched<seq<ProfileItem>>)
      modifies this
      ensures res.Response? ==> State() == old(State()).(roleMap := roleMap)
      ensures res.Response? ==> Ordered(roleMap) && forall k :: Lookup(roleMap, k) == LastName(res.body, k)
      ensures res.Thrown? ==> State() == old(State())
      ensures old(Valid()) ==> Valid()
    {
      if res.Response? {
        roleMap := BuildRoleMap(res.body);
      }
    }

    method FetchUsers(res: Fetched<seq<User>>)
      modifies this
      ensures State() == AfterFetchUsers(old(State()), res)
    {
      loading := true;
      if Succeeded(res) {
        var sorted := SortBy(res.body, UserId);
        users, filteredUsers, totalUsers := sorted, sorted, |sorted|;
      }
      loading := false;
    }

    method RecomputeCounts()
      modifies this
      ensures State() == Recount(old(State()))
    {
      ghost var s0 := State();
      var us, rm := users, roleMap;
      if |rm| > 0 && |us| > 0 {
        var live := Filter(us, IsActive);
        var active := |live|;
        var suspended := |Filter(us, IsSuspended)|;
        var counts := CountRoles(rm, live);
        RecountIs(s0, active, suspended, counts);
        activeUsers, suspendedUsers, roleCounts := active, suspended, counts;
        assert State() == s0.(activeUsers := active, suspendedUsers := suspended, roleCounts := counts);
      }
    }

    /** `handleSearch`: whatever the search endpoint returns becomes the table. */
    method HandleSearch(res: Fetched<seq<User>>)
      modifies this
      ensures res.Response? ==> State() == old(State()).(filteredUsers := res.body)
      ensures res.Thrown? ==> State() == old(State())
    {
      if res.Response? {
        filteredUsers := res.body;
      }
    }

    method ResetFilters()
      modifies this
      ensures State() == old(State()).(searchTerm := "", filteredUsers := old(users))
    {
      searchTerm, filteredUsers := "", users;
    }

    method HandleUpdate(selected: Option<User>, res: Fetched<ReplyBody>) returns (call: Option<UpdateCall>, refetch: bool, alert: Option<string>)
      requires Valid()
      modifies this
      ensures var (c, e) := UpdateStep(old(roleMap), selected, res);
              call == c && refetch == e.refetch && alert == e.alert
              && State() == old(State()).(open := if e.close then false else old(open))
    {
      var c, e := UpdateStep(roleMap, selected, res).0, UpdateStep(roleMap, selected, res).1;
      call, refetch, alert := c, e.refetch, e.alert;
      if e.close {
        open := false;
      }
    }
  }
}
