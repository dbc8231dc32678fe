/** The relational schema: one datatype per table row, the whole database as
    a value (Tables), the constraints the schema declares (Consistent), and
    the referential actions the foreign keys take when a referenced row is
    deleted. The class Db is the live database the entity operations update
    in place; its State() is the value the specifications talk about. */
module Models {
  import opened Common

  const Pending := "pending"
  const Assigned := "assigned"
  const Completed := "completed"
  const Active := "active"
  const Suspended := "suspended"

  /** The three values a request status may take (`valid_statuses`). */
  predicate IsRequestStatus(s: string) {
    s == Pending || s == Assigned || s == Completed
  }

  /** A row of `requests`; the key of the map holding it is its id. */
  datatype Request = Request(
    pinUserId: int,
    title: string,
    description: Option<string>,
    status: string,
    categoryId: Option<int>,
    createdAt: int,
    updatedAt: int,
    completedAt: Option<int>,
    view: nat,
    assignedTo: Option<int>)

  datatype Category = Category(name: string, createdAt: int, updatedAt: int)

  datatype Account = Account(
    username: string,
    password: string,
    email: string,
    role: Option<int>,
    status: Option<string>,
    lastLogin: Option<int>)

  datatype Profile = Profile(name: string, status: string)

  /** A CSR row: `csr_user_id` is the key of the map, `id` the account. */
  datatype Csr = Csr(accountId: int, company: string)

  /** A PIN row: `pin_user_id` is the key of the map, `id` the account. */
  datatype Pin = Pin(accountId: int)

  /** A row of `request_shortlists`. Its two columns form the primary key,
      so the table is a set of pairs and no pair can occur twice. */
  datatype Pair = Pair(csrUserId: int, requestId: int)

  /** The database: every table keyed by its primary key, and the next value
      of each auto-increment key. */
  datatype Tables = Tables(
    requests: map<int, Request>,
    shortlists: set<Pair>,
    categories: map<int, Category>,
    accounts: map<int, Account>,
    profiles: map<int, Profile>,
    csrs: map<int, Csr>,
    pins: map<int, Pin>,
    nextRequestId: int,
    nextCategoryId: int,
    nextAccountId: int,
    nextProfileId: int,
    nextCsrId: int)

  /** A new request row with the column defaults: status "pending", view 0,
      no assignee and no completion time. */
  function NewRequest(pinUserId: int, title: string, description: Option<string>,
                      categoryId: Option<int>, now: int): (r: Request)
    ensures r.status == Pending && r.view == 0
    ensures r.assignedTo == None && r.completedAt == None
    ensures r.pinUserId == pinUserId && r.title == title
    ensures r.description == description && r.categoryId == categoryId
  {
    Request(pinUserId, title, description, Pending, categoryId, now, now, None, 0, None)
  }

  // ---------------------------------------------------------------------
  // Constraints
  // ---------------------------------------------------------------------

  /** Auto-increment keys are positive and below the next value. */
  ghost predicate KeysBounded(t: Tables) {
    t.nextRequestId > 0 && t.nextCategoryId > 0 && t.nextAccountId > 0 &&
    t.nextProfileId > 0 && t.nextCsrId > 0 &&
    (forall k | k in t.requests :: 0 < k < t.nextRequestId) &&
    (forall k | k in t.categories :: 0 < k < t.nextCategoryId) &&
    (forall k | k in t.accounts :: 0 < k < t.nextAccountId) &&
    (forall k | k in t.profiles :: 0 < k < t.nextProfileId) &&
    (forall k | k in t.csrs :: 0 < k < t.nextCsrId)
  }

  predicate RefOk<V>(ref: Option<int>, table: map<int, V>) {
    ref.None? || ref.value in table
  }

  predicate RequestRefsOk(t: Tables, r: Request) {
    r.pinUserId in t.pins && RefOk(r.categoryId, t.categories) && RefOk(r.assignedTo, t.csrs)
  }

  /** Every foreign key points at an existing row. */
  ghost predicate ForeignKeys(t: Tables) {
    (forall p | p in t.shortlists :: p.requestId in t.requests && p.csrUserId in t.csrs) &&
    (forall k | k in t.requests :: RequestRefsOk(t, t.requests[k])) &&
    (forall k | k in t.accounts :: RefOk(t.accounts[k].role, t.profiles)) &&
    (forall k | k in t.csrs :: t.csrs[k].accountId in t.accounts) &&
    (forall k | k in t.pins :: t.pins[k].accountId in t.accounts)
  }

  /** The unique columns: category names, usernames and email addresses. */
  ghost predicate UniqueColumns(t: Tables) {
    (forall i, j | i in t.categories && j in t.categories && i != j ::
       t.categories[i].name != t.categories[j].name) &&
    (forall i, j | i in t.accounts && j in t.accounts && i != j ::
       t.accounts[i].username != t.accounts[j].username &&
       t.accounts[i].email != t.accounts[j].email)
  }

  ghost predicate Consistent(t: Tables) {
    KeysBounded(t) && ForeignKeys(t) && UniqueColumns(t)
  }

  function EmptyTables(): (t: Tables)
    ensures Consistent(t)
  {
    Tables(map[], {}, map[], map[], map[], map[], map[], 1, 1, 1, 1, 1)
  }

  // ---------------------------------------------------------------------
  // Shortlist pairs
  // ---------------------------------------------------------------------

  function PairsOf(s: set<Pair>, requestId: int): set<Pair> {
    set p | p in s && p.requestId == requestId
  }

  /** The CSRs that shortlisted a request (`Request.shortlistees`). */
  function Shortlistees(t: Tables, requestId: int): set<int> {
    set p | p in t.shortlists && p.requestId == requestId :: p.csrUserId
  }

  lemma {:induction false} ImageOfPairs(ps: set<Pair>, requestId: int)
    requires forall p | p in ps :: p.requestId == requestId
    ensures |set p | p in ps :: p.csrUserId| == |ps|
    decreases |ps|
  {
    if ps != {} {
      var p :| p in ps;
      var rest := ps - {p};
      ImageOfPairs(rest, requestId);
      var img := set q | q in ps :: q.csrUserId;
      var imgRest := set q | q in rest :: q.csrUserId;
      assert img == imgRest + {p.csrUserId};
      assert forall q | q in rest :: q.csrUserId != p.csrUserId by {
        forall q | q in rest ensures q.csrUserId != p.csrUserId {
          assert q != p && q.requestId == p.requestId;
        }
      }
    }
  }

  /** Because a pair is a primary key, the number of shortlist rows of a
      request (`shortlistees_count`) is the number of distinct CSRs that
      shortlisted it. */
  lemma PairCountIsCsrCount(t: Tables, requestId: int)
    ensures |PairsOf(t.shortlists, requestId)| == |Shortlistees(t, requestId)|
  {
    var ps := PairsOf(t.shortlists, requestId);
    ImageOfPairs(ps, requestId);
    assert Shortlistees(t, requestId) == set p | p in ps :: p.csrUserId;
  }

  // ---------------------------------------------------------------------
  // Referential actions on delete
  // ---------------------------------------------------------------------

  /** Deleting a request; its shortlist pairs go with it (CASCADE). */
  function DeleteRequestRow(t: Tables, id: int): (u: Tables)
    requires Consistent(t)
    ensures Consistent(u)
    ensures u.requests == t.requests - {id}
    ensures forall p :: p in u.shortlists <==> p in t.shortlists && p.requestId != id
    ensures u == t.(requests := u.requests, shortlists := u.shortlists)
  {
    var pairs := set p | p in t.shortlists && p.requestId != id;
    t.(requests := t.requests - {id}, shortlists := pairs)
  }

  /** The requests with category `id` cleared. */
  function Uncategorised(rs: map<int, Request>, id: int): (m: map<int, Request>)
    ensures m.Keys == rs.Keys
    ensures forall k | k in rs ::
              m[k] == if rs[k].categoryId == Some(id) then rs[k].(categoryId := None) else rs[k]
  {
    map k | k in rs :: if rs[k].categoryId == Some(id) then rs[k].(categoryId := None) else rs[k]
  }

  /** Deleting a category; requests that used it keep no category (SET NULL). */
  function DeleteCategoryRow(t: Tables, id: int): (u: Tables)
    requires Consistent(t)
    ensures Consistent(u)
    ensures u.categories == t.categories - {id}
    ensures u.requests.Keys == t.requests.Keys
    ensures forall k | k in t.requests ::
              u.requests[k] == if t.requests[k].categoryId == Some(id)
                               then t.requests[k].(categoryId := None) else t.requests[k]
    ensures u == t.(categories := u.categories, requests := u.requests)
  {
    var rs := Uncategorised(t.requests, id);
    CategoryCleared(t, id, rs);
    t.(categories := t.categories - {id}, requests := rs)
  }

  lemma CategoryCleared(t: Tables, id: int, rs: map<int, Request>)
    requires Consistent(t)
    requires rs.Keys == t.requests.Keys
    requires forall k | k in t.requests ::
               rs[k] == if t.requests[k].categoryId == Some(id)
                        then t.requests[k].(categoryId := None) else t.requests[k]
    ensures Consistent(t.(categories := t.categories - {id}, requests := rs))
  {
    var u := t.(categories := t.categories - {id}, requests := rs);
    assert KeysBounded(u);
    forall k | k in u.requests ensures RequestRefsOk(u, u.requests[k]) {
      assert RequestRefsOk(t, t.requests[k]);
    }
    assert ForeignKeys(u);
    assert UniqueColumns(u);
  }

  /** The shortlist pairs of every CSR but `c`. */
  function PairsWithout(ps: set<Pair>, c: int): (q: set<Pair>)
    ensures forall p :: p in q <==> p in ps && p.csrUserId != c
  {
    set p | p in ps && p.csrUserId != c
  }

  /** The requests with assignee `c` cleared. */
  function Unassigned(rs: map<int, Request>, c: int): (m: map<int, Request>)
    ensures m.Keys == rs.Keys
    ensures forall k | k in rs ::
              m[k] == if rs[k].assignedTo == Some(c) then rs[k].(assignedTo := None) else rs[k]
  {
    map k | k in rs :: if rs[k].assignedTo == Some(c) then rs[k].(assignedTo := None) else rs[k]
  }

  /** Deleting a CSR: its shortlist pairs go (CASCADE) and the requests it
      was assigned have no assignee (SET NULL). */
  function DeleteCsrRow(t: Tables, c: int): (u: Tables)
    requires Consistent(t)
    ensures Consistent(u)
    ensures u.csrs == t.csrs - {c}
    ensures forall p :: p in u.shortlists <==> p in t.shortlists && p.csrUserId != c
    ensures u.requests.Keys == t.requests.Keys
    ensures forall k | k in t.requests ::
              u.requests[k] == if t.requests[k].assignedTo == Some(c)
                               then t.requests[k].(assignedTo := None) else t.requests[k]
    ensures u == t.(csrs := u.csrs, shortlists := u.shortlists, requests := u.requests)
  {
    var u := t.(csrs := t.csrs - {c}, shortlists := PairsWithout(t.shortlists, c),
                requests := Unassigned(t.requests, c));
    CsrRowDeleted(t, c, u);
    u
  }

  lemma CsrRowDeleted(t: Tables, c: int, u: Tables)
    requires Consistent(t)
    requires u.csrs == t.csrs - {c}
    requires forall p :: p in u.shortlists <==> p in t.shortlists && p.csrUserId != c
    requires u.requests.Keys == t.requests.Keys
    requires forall k | k in t.requests ::
               u.requests[k] == if t.requests[k].assignedTo == Some(c)
                                then t.requests[k].(assignedTo := None) else t.requests[k]
    requires u == t.(csrs := u.csrs, shortlists := u.shortlists, requests := u.requests)
    ensures Consistent(u)
  {
    forall k | k in u.requests ensures RequestRefsOk(u, u.requests[k]) {
      assert RequestRefsOk(t, t.requests[k]);
    }
  }

  /** The accounts with role `id` cleared. */
  function Unroled(accs: map<int, Account>, id: int): (m: map<int, Account>)
    ensures m.Keys == accs.Keys
    ensures forall k | k in accs ::
              m[k] == if accs[k].role == Some(id) then accs[k].(role := None) else accs[k]
  {
    map k | k in accs :: if accs[k].role == Some(id) then accs[k].(role := None) else accs[k]
  }

  /** Deleting a profile; accounts with that role keep no role (SET NULL). */
  function DeleteProfileRow(t: Tables, id: int): (u: Tables)
    requires Consistent(t)
    ensures Consistent(u)
    ensures u.profiles == t.profiles - {id}
    ensures u.accounts.Keys == t.accounts.Keys
    ensures forall k | k in t.accounts ::
              u.accounts[k] == if t.accounts[k].role == Some(id)
                               then t.accounts[k].(role := None) else t.accounts[k]
    ensures u == t.(profiles := u.profiles, accounts := u.accounts)
  {
    var u := t.(profiles := t.profiles - {id}, accounts := Unroled(t.accounts, id));
    ProfileRowDeleted(t, id, u);
    u
  }

  lemma ProfileRowDeleted(t: Tables, id: int, u: Tables)
    requires Consistent(t)
    requires u.profiles == t.profiles - {id}
    requires u.accounts.Keys == t.accounts.Keys
    requires forall k | k in t.accounts ::
               u.accounts[k] == if t.accounts[k].role == Some(id)
                                then t.accounts[k].(role := None) else t.accounts[k]
    requires u == t.(profiles := u.profiles, accounts := u.accounts)
    ensures Consistent(u)
  {
    forall k | k in u.accounts ensures RefOk(u.accounts[k].role, u.profiles) {
      assert RefOk(t.accounts[k].role, t.profiles);
    }
    forall i, j | i in u.accounts && j in u.accounts && i != j
      ensures u.accounts[i].username != u.accounts[j].username
      ensures u.accounts[i].email != u.accounts[j].email
    {
      assert u.accounts[i].username == t.accounts[i].username;
      assert u.accounts[j].username == t.accounts[j].username;
      assert u.accounts[i].email == t.accounts[i].email;
      assert u.accounts[j].email == t.accounts[j].email;
    }
  }

  // ---------------------------------------------------------------------
  // Single-row writes that keep the constraints
  // ---------------------------------------------------------------------

  function PutRequest(t: Tables, id: int, r: Request): (u: Tables)
    requires Consistent(t) && id in t.requests && RequestRefsOk(t, r)
    ensures Consistent(u)
    ensures u == t.(requests := t.requests[id := r])
  {
    var u := t.(requests := t.requests[id := r]);
    assert forall k | k in u.requests :: RequestRefsOk(u, u.requests[k]) by {
      forall k | k in u.requests ensures RequestRefsOk(u, u.requests[k]) {
        if k != id { assert RequestRefsOk(t, t.requests[k]); }
      }
    }
    u
  }

  /** Insert a request under the next auto-increment id. */
  function InsertRequest(t: Tables, r: Request): (u: Tables)
    requires Consistent(t) && RequestRefsOk(t, r)
    ensures Consistent(u)
    ensures t.nextRequestId !in t.requests
    ensures u == t.(requests := t.requests[t.nextRequestId := r],
                    nextRequestId := t.nextRequestId + 1)
  {
    var id := t.nextRequestId;
    var u := t.(requests := t.requests[id := r], nextRequestId := id + 1);
    assert forall k | k in u.requests :: RequestRefsOk(u, u.requests[k]) by {
      forall k | k in u.requests ensures RequestRefsOk(u, u.requests[k]) {
        if k != id { assert RequestRefsOk(t, t.requests[k]); }
      }
    }
    u
  }

  function AddPair(t: Tables, p: Pair): (u: Tables)
    requires Consistent(t) && p.requestId in t.requests && p.csrUserId in t.csrs
    ensures Consistent(u)
    ensures u == t.(shortlists := t.shortlists + {p})
  {
    t.(shortlists := t.shortlists + {p})
  }

  function RemovePair(t: Tables, p: Pair): (u: Tables)
    requires Consistent(t)
    ensures Consistent(u)
    ensures u == t.(shortlists := t.shortlists - {p})
  {
    t.(shortlists := t.shortlists - {p})
  }

  /** No category other than `except` has exactly this name. */
  ghost predicate NameFree(t: Tables, name: string, except: int) {
    forall k | k in t.categories && k != except :: t.categories[k].name != name
  }

  function PutCategory(t: Tables, id: int, c: Category): (u: Tables)
    requires Consistent(t) && id in t.categories && NameFree(t, c.name, id)
    ensures Consistent(u)
    ensures u == t.(categories := t.categories[id := c])
  {
    t.(categories := t.categories[id := c])
  }

  function InsertCategory(t: Tables, c: Category): (u: Tables)
    requires Consistent(t) && NameFree(t, c.name, t.nextCategoryId)
    ensures Consistent(u)
    ensures t.nextCategoryId !in t.categories
    ensures u == t.(categories := t.categories[t.nextCategoryId := c],
                    nextCategoryId := t.nextCategoryId + 1)
  {
    t.(categories := t.categories[t.nextCategoryId := c], nextCategoryId := t.nextCategoryId + 1)
  }

  /** No account other than `except` has this username or this email. */
  ghost predicate AccountFree(t: Tables, a: Account, except: int) {
    forall k | k in t.accounts && k != except ::
      t.accounts[k].username != a.username && t.accounts[k].email != a.email
  }

  function PutAccount(t: Tables, id: int, a: Account): (u: Tables)
    requires Consistent(t) && id in t.accounts
    requires RefOk(a.role, t.profiles) && AccountFree(t, a, id)
    ensures Consistent(u)
    ensures u == t.(accounts := t.accounts[id := a])
  {
    t.(accounts := t.accounts[id := a])
  }

  function InsertAccount(t: Tables, a: Account): (u: Tables)
    requires Consistent(t) && RefOk(a.role, t.profiles) && AccountFree(t, a, t.nextAccountId)
    ensures Consistent(u)
    ensures t.nextAccountId !in t.accounts
    ensures u == t.(accounts := t.accounts[t.nextAccountId := a],
                    nextAccountId := t.nextAccountId + 1)
  {
    t.(accounts := t.accounts[t.nextAccountId := a], nextAccountId := t.nextAccountId + 1)
  }

  function PutProfile(t: Tables, id: int, p: Profile): (u: Tables)
    requires Consistent(t) && id in t.profiles
    ensures Consistent(u)
    ensures u == t.(profiles := t.profiles[id := p])
  {
    t.(profiles := t.profiles[id := p])
  }

  function InsertProfile(t: Tables, p: Profile): (u: Tables)
    requires Consistent(t)
    ensures Consistent(u)
    ensures t.nextProfileId !in t.profiles
    ensures u == t.(profiles := t.profiles[t.nextProfileId := p],
                    nextProfileId := t.nextProfileId + 1)
  {
    t.(profiles := t.profiles[t.nextProfileId := p], nextProfileId := t.nextProfileId + 1)
  }

  /** The result of an entity operation: its reply and the database after it. */
  datatype Outcome = Outcome(reply: Reply, tables: Tables)

  // ---------------------------------------------------------------------
  // The live database
  // ---------------------------------------------------------------------

  class Db {
    var requests: map<int, Request>
    var shortlists: set<Pair>
    var categories: map<int, Category>
    var accounts: map<int, Account>
    var profiles: map<int, Profile>
    var csrs: map<int, Csr>
    var pins: map<int, Pin>
    var nextRequestId: int
    var nextCategoryId: int
    var nextAccountId: int
    var nextProfileId: int
    var nextCsrId: int

    function State(): Tables
      reads this
    {
      Tables(requests, shortlists, categories, accounts, profiles, csrs, pins,
             nextRequestId, nextCategoryId, nextAccountId, nextProfileId, nextCsrId)
    }

    ghost predicate Valid()
      reads this
    {
      Consistent(State())
    }

    constructor ()
      ensures State() == EmptyTables()
      ensures Valid()
    {
      requests, shortlists, categories := map[], {}, map[];
      accounts, profiles, csrs, pins := map[], map[], map[], map[];
      nextRequestId, nextCategoryId, nextAccountId, nextProfileId, nextCsrId := 1, 1, 1, 1, 1;
    }

    /** Replace every table at once (what a commit makes visible). */
    method Store(t: Tables)
      modifies this
      ensures State() == t
    {
      StoreRows(t);
      StoreProfiles(t);
      StoreIds(t);
    }

    /** The three parts of `Store`, each with a frame of its own fields. */
    method StoreRows(t: Tables)
      modifies this`requests, this`shortlists, this`categories, this`accounts
      ensures requests == t.requests && shortlists == t.shortlists
      ensures categories == t.categories && accounts == t.accounts
    {
      requests, shortlists, categories, accounts := t.requests, t.shortlists, t.categories, t.accounts;
    }

    method StoreProfiles(t: Tables)
      modifies this`profiles, this`csrs, this`pins
      ensures profiles == t.profiles && csrs == t.csrs && pins == t.pins
    {
      profiles, csrs, pins := t.profiles, t.csrs, t.pins;
    }

    method StoreIds(t: Tables)
      modifies this`nextRequestId, this`nextCategoryId, this`nextAccountId, this`nextProfileId, this`nextCsrId
      ensures nextRequestId == t.nextRequestId && nextCategoryId == t.nextCategoryId
      ensures nextAccountId == t.nextAccountId && nextProfileId == t.nextProfileId && nextCsrId == t.nextCsrId
    {
      nextRequestId, nextCategoryId, nextAccountId, nextProfileId, nextCsrId :=
        t.nextRequestId, t.nextCategoryId, t.nextAccountId, t.nextProfileId, t.nextCsrId;
    }
  }
}
