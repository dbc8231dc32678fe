/** The user account operations of the user admin: login, update, suspend,
    reactivate and create. None of them catches a database error except
    `create_user`, so a write the schema refuses (a null or duplicate
    username or email, a role naming no profile) surfaces as Crash and the
    session rolls back: the tables are unchanged. */
module UserAccountEntity {
  import opened Common
  import opened Seqs
  import opened Models

  // ---------------------------------------------------------------------
  // login
  // ---------------------------------------------------------------------

  /** The id of the account `login` returns, or None for the empty record
      it returns when the username is unknown or the password differs. */
  function Login(t: Tables, username: string, password: string): (r: Option<int>)
    requires Consistent(t)
    ensures r.Some? <==>
              exists k | k in t.accounts :: t.accounts[k].username == username
                                             && t.accounts[k].password == password
    ensures r.Some? ==> r.value in t.accounts && t.accounts[r.value].username == username
                        && t.accounts[r.value].password == password
  {
    var named := Filter(IdsUpTo(t.accounts.Keys, t.nextAccountId),
                        k => k in t.accounts && t.accounts[k].username == username);
    if named == [] || t.accounts[named[0]].password != password then None
    else Some(named[0])
  }

  /** With unique usernames, at most one account can log in under a name. */
  lemma LoginFindsTheAccount(t: Tables, k: int)
    requires Consistent(t) && k in t.accounts
    ensures Login(t, t.accounts[k].username, t.accounts[k].password) == Some(k)
  {
  }

  // ---------------------------------------------------------------------
  // get_all_users
  // ---------------------------------------------------------------------

  /** `get_all_users`: every account once, as (id, row); the query sets no
      order, and the model takes the ids in ascending order. */
  function GetAllUsers(t: Tables): (rows: seq<(int, Account)>)
    requires Consistent(t)
    ensures forall i | 0 <= i < |rows| :: rows[i].0 in t.accounts && rows[i].1 == t.accounts[rows[i].0]
    ensures forall k | k in t.accounts :: exists i | 0 <= i < |rows| :: rows[i].0 == k
    ensures forall i, j | 0 <= i < j < |rows| :: rows[i].0 < rows[j].0
  {
    var ids := IdsUpTo(t.accounts.Keys, t.nextAccountId);
    var rows := seq(|ids|, i requires 0 <= i < |ids| => (ids[i], t.accounts[ids[i]]));
    forall k | k in t.accounts ensures exists i | 0 <= i < |rows| :: rows[i].0 == k {
      var i :| 0 <= i < |ids| && ids[i] == k;
      assert rows[i].0 == k;
    }
    rows
  }

  // ---------------------------------------------------------------------
  // update_user
  // ---------------------------------------------------------------------

  /** The keys `update_user` copies, in the order it copies them. */
  datatype AccountKey = UsernameKey | EmailKey | RoleKey | StatusKey

  const AllowedKeys: seq<AccountKey> := [UsernameKey, EmailKey, RoleKey, StatusKey]

  /** The body of `update_user`: each key absent, null or with a value. */
  datatype UserPatch = UserPatch(
    username: JsonField<string>, email: JsonField<string>,
    role: JsonField<int>, status: JsonField<string>)

  /** An account row in the session before commit: `setattr` may have put
      None into the non-null columns. */
  datatype Staged = Staged(
    username: Option<string>, password: string, email: Option<string>,
    role: Option<int>, status: Option<string>, lastLogin: Option<int>)

  function Stage(a: Account): Staged {
    Staged(Some(a.username), a.password, Some(a.email), a.role, a.status, a.lastLogin)
  }

  predicate HasKey(p: UserPatch, key: AccountKey) {
    match key
    case UsernameKey => !p.username.Missing?
    case EmailKey => !p.email.Missing?
    case RoleKey => !p.role.Missing?
    case StatusKey => !p.status.Missing?
  }

  /** `if key in user_data: setattr(user, key, user_data[key])`. */
  function CopyKey(s: Staged, p: UserPatch, key: AccountKey): (r: Staged)
    ensures !HasKey(p, key) ==> r == s
    ensures r.password == s.password && r.lastLogin == s.lastLogin
  {
    if !HasKey(p, key) then s
    else match key
      case UsernameKey => s.(username := Get(p.username))
      case EmailKey => s.(email := Get(p.email))
      case RoleKey => s.(role := Get(p.role))
      case StatusKey => s.(status := Get(p.status))
  }

  /** The row after copying `keys` in order. */
  function CopyKeys(s: Staged, p: UserPatch, keys: seq<AccountKey>): Staged
    decreases |keys|
  {
    if keys == [] then s else CopyKey(CopyKeys(s, p, keys[..|keys| - 1]), p, keys[|keys| - 1])
  }

  /** `patch` on the field of account `a`: the body's value when the key is
      present, the old value otherwise. */
  function Patched<T>(f: JsonField<T>, old_: Option<T>): Option<T> {
    if f.Missing? then old_ else Get(f)
  }

  /** After the loop exactly the present keys have the body's values; the
      password and last login are never touched. */
  lemma CopyAllowedKeys(a: Account, p: UserPatch)
    ensures CopyKeys(Stage(a), p, AllowedKeys) ==
            Staged(Patched(p.username, Some(a.username)), a.password,
                   Patched(p.email, Some(a.email)), Patched(p.role, a.role),
                   Patched(p.status, a.status), a.lastLogin)
  {
    var s0 := Stage(a);
    assert [UsernameKey][..0] == [];
    assert CopyKeys(s0, p, [UsernameKey]) == CopyKey(s0, p, UsernameKey);
    assert [UsernameKey, EmailKey][..1] == [UsernameKey];
    var s2 := CopyKeys(s0, p, [UsernameKey, EmailKey]);
    assert s2 == CopyKey(CopyKey(s0, p, UsernameKey), p, EmailKey);
    assert [UsernameKey, EmailKey, RoleKey][..2] == [UsernameKey, EmailKey];
    var s3 := CopyKeys(s0, p, [UsernameKey, EmailKey, RoleKey]);
    assert s3 == CopyKey(s2, p, RoleKey);
    assert AllowedKeys[..3] == [UsernameKey, EmailKey, RoleKey];
    assert CopyKeys(s0, p, AllowedKeys) == CopyKey(s3, p, StatusKey);
  }

  /** The row the database accepts at commit, if it accepts it. */
  predicate CommitOk(t: Tables, id: int, s: Staged) {
    s.username.Some? && s.email.Some? && RefOk(s.role, t.profiles) &&
    forall k | k in t.accounts && k != id ::
      t.accounts[k].username != s.username.value && t.accounts[k].email != s.email.value
  }

  function Committed(s: Staged): Account
    requires s.username.Some? && s.email.Some?
  {
    Account(s.username.value, s.password, s.email.value, s.role, s.status, s.lastLogin)
  }

  function UpdateUser(t: Tables, userId: int, p: UserPatch): (o: Outcome)
    requires Consistent(t)
    ensures Consistent(o.tables)
    ensures o.reply != Ok ==> o.tables == t
    ensures userId !in t.accounts ==> o.reply == Err("User not found")
    ensures o.reply.Ok? || o.reply == Err("User not found") || o.reply.Crash?
    ensures userId in t.accounts && (p.username.Null? || p.email.Null?) ==> o.reply == Crash
    ensures o.reply == Ok ==>
              userId in t.accounts && userId in o.tables.accounts &&
              var a := t.accounts[userId];
              var b := o.tables.accounts[userId];
              && o.tables == t.(accounts := t.accounts[userId := b])
              && Some(b.username) == Patched(p.username, Some(a.username))
              && Some(b.email) == Patched(p.email, Some(a.email))
              && b.role == Patched(p.role, a.role)
              && b.status == Patched(p.status, a.status)
              && b.password == a.password && b.lastLogin == a.lastLogin
    ensures o.reply == Ok <==>
              userId in t.accounts &&
              var a := t.accounts[userId];
              CommitOk(t, userId, Staged(Patched(p.username, Some(a.username)), a.password,
                                         Patched(p.email, Some(a.email)), Patched(p.role, a.role),
                                         Patched(p.status, a.status), a.lastLogin))
  {
    if userId !in t.accounts then Outcome(Err("User not found"), t)
    else
      var a := t.accounts[userId];
      var s := CopyKeys(Stage(a), p, AllowedKeys);
      CopyAllowedKeys(a, p);
      if !CommitOk(t, userId, s) then Outcome(Crash, t)
      else
        Outcome(Ok, PutAccount(t, userId, Committed(s)))
  }

  /** A body without any of the four keys changes nothing and succeeds. */
  lemma EmptyPatchChangesNothing(t: Tables, userId: int)
    requires Consistent(t) && userId in t.accounts
    ensures UpdateUser(t, userId, UserPatch(Missing, Missing, Missing, Missing)) == Outcome(Ok, t)
  {
    var o := UpdateUser(t, userId, UserPatch(Missing, Missing, Missing, Missing));
    assert o.tables.accounts[userId] == t.accounts[userId];
    assert o.tables.accounts == t.accounts;
  }

  method ApplyUpdateUser(db: Db, userId: int, p: UserPatch) returns (r: Reply)
    requires db.Valid()
    modifies db
    ensures Outcome(r, db.State()) == UpdateUser(old(db.State()), userId, p)
    ensures db.Valid()
  {
    if userId !in db.accounts {
      return Err("User not found");
    }
    var user := Stage(db.accounts[userId]);
    for i := 0 to |AllowedKeys|
      invariant user == CopyKeys(Stage(db.accounts[userId]), p, AllowedKeys[..i])
    {
      assert AllowedKeys[..i + 1][..i] == AllowedKeys[..i];
      user := CopyKey(user, p, AllowedKeys[i]);
    }
    assert AllowedKeys[..|AllowedKeys|] == AllowedKeys;
    if !CommitOk(db.State(), userId, user) {
      return Crash;
    }
    db.accounts := db.accounts[userId := Committed(user)];
    r := Ok;
  }

  // ---------------------------------------------------------------------
  // suspend_user and reactivate_user
  // ---------------------------------------------------------------------

  /** Set the status of an existing account unless it already lower-cases
      to `target`; a null status has no `.lower()` and crashes. */
  function SetStatus(t: Tables, userId: int, target: string, already: string): (o: Outcome)
    requires Consistent(t)
    ensures Consistent(o.tables)
    ensures o.reply != Ok ==> o.tables == t
    ensures userId !in t.accounts ==> o.reply == Err("User not found")
    ensures userId in t.accounts && t.accounts[userId].status.None? ==> o.reply == Crash
    ensures userId in t.accounts && t.accounts[userId].status.Some? &&
            Lower(t.accounts[userId].status.value) == target ==>
              o.reply == Err(already)
    ensures o.reply == Ok <==>
              userId in t.accounts && t.accounts[userId].status.Some?
              && Lower(t.accounts[userId].status.value) != target
    ensures o.reply == Ok ==>
              userId in t.accounts &&
              o.tables == t.(accounts := t.accounts[userId :=
                                t.accounts[userId].(status := Some(target))])
  {
    if userId !in t.accounts then Outcome(Err("User not found"), t)
    else
      var user := t.accounts[userId];
      if user.status.None? then Outcome(Crash, t)
      else if Lower(user.status.value) == target then Outcome(Err(already), t)
      else Outcome(Ok, PutAccount(t, userId, user.(status := Some(target))))
  }

  function SuspendUser(t: Tables, userId: int): (o: Outcome)
    requires Consistent(t)
    ensures Consistent(o.tables)
    ensures o == SetStatus(t, userId, Suspended, "User is already suspended")
    ensures userId !in t.accounts ==> o == Outcome(Err("User not found"), t)
    ensures userId in t.accounts && t.accounts[userId].status.Some? &&
            Lower(t.accounts[userId].status.value) == Suspended ==>
              o == Outcome(Err("User is already suspended"), t)
    ensures o.reply == Ok ==>
              userId in t.accounts &&
              o.tables == t.(accounts := t.accounts[userId :=
                                t.accounts[userId].(status := Some(Suspended))])
  {
    SetStatus(t, userId, Suspended, "User is already suspended")
  }

  function ReactivateUser(t: Tables, userId: int): (o: Outcome)
    requires Consistent(t)
    ensures Consistent(o.tables)
    ensures o == SetStatus(t, userId, Active, "User is already active")
    ensures userId !in t.accounts ==> o == Outcome(Err("User not found"), t)
    ensures userId in t.accounts && t.accounts[userId].status.Some? &&
            Lower(t.accounts[userId].status.value) == Active ==>
              o == Outcome(Err("User is already active"), t)
    ensures o.reply == Ok ==>
              userId in t.accounts &&
              o.tables == t.(accounts := t.accounts[userId :=
                                t.accounts[userId].(status := Some(Active))])
  {
    SetStatus(t, userId, Active, "User is already active")
  }

  method ApplySetStatus(db: Db, userId: int, target: string, already: string) returns (r: Reply)
    requires db.Valid()
    modifies db
    ensures Outcome(r, db.State()) == SetStatus(old(db.State()), userId, target, already)
    ensures db.Valid()
  {
    if userId !in db.accounts {
      return Err("User not found");
    }
    var user := db.accounts[userId];
    if user.status.None? {
      return Crash;
    }
    if Lower(user.status.value) == target {
      return Err(already);
    }
    db.accounts := db.accounts[userId := user.(status := Some(target))];
    r := Ok;
  }

  method ApplySuspendUser(db: Db, userId: int) returns (r: Reply)
    requires db.Valid()
    modifies db
    ensures Outcome(r, db.State()) == SuspendUser(old(db.State()), userId)
    ensures db.Valid()
  {
    r := ApplySetStatus(db, userId, Suspended, "User is already suspended");
  }

  method ApplyReactivateUser(db: Db, userId: int) returns (r: Reply)
    requires db.Valid()
    modifies db
    ensures Outcome(r, db.State()) == ReactivateUser(old(db.State()), userId)
    ensures db.Valid()
  {
    r := ApplySetStatus(db, userId, Active, "User is already active");
  }

  /** Suspending an active user and then reactivating them succeeds twice
      and gives back exactly the database before. */
  lemma SuspendThenReactivate(t: Tables, userId: int)
    requires Consistent(t) && userId in t.accounts
    requires t.accounts[userId].status == Some(Active)
    ensures SuspendUser(t, userId).reply == Ok
    ensures ReactivateUser(SuspendUser(t, userId).tables, userId) == Outcome(Ok, t)
  {
    var u := SuspendUser(t, userId).tables;
    assert u.accounts[userId].status == Some(Suspended);
    assert Lower(Suspended) == Suspended;
    assert Lower(Active) == Active;
    var v := ReactivateUser(u, userId).tables;
    assert v.accounts == t.accounts;
  }

  /** A second suspension in a row is always refused. */
  lemma SuspendTwiceRefused(t: Tables, userId: int)
    requires Consistent(t) && userId in t.accounts && t.accounts[userId].status.Some?
    ensures SuspendUser(SuspendUser(t, userId).tables, userId).reply == Err("User is already suspended")
  {
    var u := SuspendUser(t, userId).tables;
    if Lower(t.accounts[userId].status.value) != Suspended {
      assert Lower(Suspended) == Suspended;
      assert u.accounts[userId].status == Some(Suspended);
    }
  }

  // ---------------------------------------------------------------------
  // create_user
  // ---------------------------------------------------------------------

  /** The values `create_user` reads with `user_data.get`. */
  datatype NewUser = NewUser(
    username: Option<string>, email: Option<string>, role: Option<int>,
    status: Option<string>, password: Option<string>)

  predicate UsernameExists(t: Tables, username: string) {
    exists k | k in t.accounts :: t.accounts[k].username == username
  }

  /** The insert commits: no null in a non-null column, no duplicate email
      and a role naming a profile. The status column's default fills in a
      missing status. */
  predicate InsertOk(t: Tables, d: NewUser) {
    d.username.Some? && d.email.Some? && d.password.Some? && RefOk(d.role, t.profiles) &&
    forall k | k in t.accounts :: t.accounts[k].email != d.email.value
  }

  function NewAccount(d: NewUser): Account
    requires d.username.Some? && d.email.Some? && d.password.Some?
  {
    Account(d.username.value, d.password.value, d.email.value, d.role,
            Some(d.status.GetOr(Active)), None)
  }

  function CreateUser(t: Tables, d: NewUser): (o: Outcome)
    requires Consistent(t)
    ensures Consistent(o.tables)
    ensures o.reply != Ok ==> o.tables == t
    ensures d.username.Some? && UsernameExists(t, d.username.value) ==>
              o.reply == Err("Username already exists")
    ensures o.reply.Ok? || o.reply == Err("Username already exists")
            || o.reply == Err("Failed to create user")
    ensures o.reply == Ok <==>
              d.username.Some? && !UsernameExists(t, d.username.value) && InsertOk(t, d)
    ensures o.reply == Ok ==>
              var id := t.nextAccountId;
              && id !in t.accounts
              && d.username.Some? && d.email.Some? && d.password.Some?
              && o.tables.accounts == t.accounts[id := Account(d.username.value, d.password.value,
                                                               d.email.value, d.role,
                                                               Some(d.status.GetOr(Active)), None)]
              && |o.tables.accounts| == |t.accounts| + 1
              && o.tables == t.(accounts := o.tables.accounts, nextAccountId := id + 1)
  {
    if d.username.Some? && UsernameExists(t, d.username.value) then
      Outcome(Err("Username already exists"), t)
    else if !InsertOk(t, d) then Outcome(Err("Failed to create user"), t)
    else Outcome(Ok, InsertAccount(t, NewAccount(d)))
  }

  method ApplyCreateUser(db: Db, d: NewUser) returns (r: Reply)
    requires db.Valid()
    modifies db
    ensures Outcome(r, db.State()) == CreateUser(old(db.State()), d)
    ensures db.Valid()
  {
    var t := db.State();
    if d.username.Some? && UsernameExists(db.State(), d.username.value) {
      return Err("Username already exists");
    }
    if !InsertOk(db.State(), d) {
      return Err("Failed to create user");
    }
    db.Store(InsertAccount(t, NewAccount(d)));
    r := Ok;
  }

  /** A created user can log in with the username and password given. */
  lemma CreatedUserCanLogIn(t: Tables, d: NewUser)
    requires Consistent(t) && CreateUser(t, d).reply == Ok
    ensures d.username.Some? && d.password.Some?
    ensures Login(CreateUser(t, d).tables, d.username.value, d.password.value)
            == Some(t.nextAccountId)
  {
    var u := CreateUser(t, d).tables;
    LoginFindsTheAccount(u, t.nextAccountId);
  }
}
