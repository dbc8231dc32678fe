/** The login form: the failure test on the login reply and the route chosen
    from the upper-cased role. The route is what `navigate` receives; `stored`
    says whether the user was written to local storage. */
module LoginForm {
  import opened Common
  import opened Client

  /** A numeric id field as it prints in a template string. */
  datatype IdField = IdNumber(n: int) | IdNull | IdMissing

  function IdText(f: IdField): (t: string)
    ensures f.IdNumber? ==> t == IntToString(f.n)
    ensures f.IdNull? ==> t == "null"
    ensures f.IdMissing? ==> t == "undefined"
  {
    match f
    case IdNumber(n) => IntToString(n)
    case IdNull => "null"
    case IdMissing => "undefined"
  }

  /** The decoded login body. A reply without a JSON content type, or one
      that does not parse, decodes as the empty object; null, strings,
      numbers and booleans are `NotObject`. `role` is None when it is null,
      missing or not a string. */
  datatype LoginData =
    | NotObject
    | UserObject(keyCount: nat, id: Option<int>, role: Option<string>, csrUserId: IdField, pinUserId: IdField)

  const EmptyObject := UserObject(0, None, None, IdMissing, IdMissing)

  /** The failure test of `onClick`. */
  predicate LoginFailed(res: Fetched<LoginData>) {
    || !Succeeded(res)
    || res.body.NotObject?
    || res.body.keyCount == 0
    || res.body.id.None? || res.body.id.value == 0
  }

  datatype Outcome = Outcome(route: string, stored: bool)

  function RoleRoute(role: string, user: LoginData): (route: string)
    requires user.UserObject?
  {
    var roleName := Upper(role);
    if roleName == "PLATFORM" then "/pm/dashboard"
    else if roleName == "ADMIN" then "/ua/dashboard"
    else if roleName == "CSR" then "/csr/dashboard/user?id=" + IdText(user.csrUserId)
    else if roleName == "PIN" then "/pin/dashboard/user?id=" + IdText(user.pinUserId)
    else "/"
  }

  /** `onClick` after the reply: a failed login goes back to "/"; otherwise
      the user is stored and the upper-cased role picks the dashboard. A role
      that is not a string throws at `toUpperCase`, which also leads to "/". */
  function Login(res: Fetched<LoginData>): (o: Outcome)
    ensures LoginFailed(res) ==> o == Outcome("/", false)
    ensures !LoginFailed(res) ==> o.stored
    ensures !LoginFailed(res) && res.body.role.None? ==> o.route == "/"
    ensures !LoginFailed(res) && res.body.role.Some? ==>
              var roleName := Upper(res.body.role.value);
              && (roleName == "PLATFORM" ==> o.route == "/pm/dashboard")
              && (roleName == "ADMIN" ==> o.route == "/ua/dashboard")
              && (roleName == "CSR" ==> o.route == "/csr/dashboard/user?id=" + IdText(res.body.csrUserId))
              && (roleName == "PIN" ==> o.route == "/pin/dashboard/user?id=" + IdText(res.body.pinUserId))
              && (roleName !in {"PLATFORM", "ADMIN", "CSR", "PIN"} ==> o.route == "/")
  {
    if LoginFailed(res) then Outcome("/", false)
    else if res.body.role.None? then Outcome("/", true)
    else Outcome(RoleRoute(res.body.role.value, res.body), true)
  }

  /** A body that is not JSON never logs anyone in. */
  lemma NonJsonBodyFails(ok: bool, status: int, text: string)
    ensures Login(Response(ok, status, text, EmptyObject)) == Outcome("/", false)
  {
  }

  /** Only the role's letters matter, not their case. */
  lemma {:induction false} RoleCaseIgnored(res: Fetched<LoginData>, other: string)
    requires !LoginFailed(res) && res.body.role.Some? && Lower(other) == Lower(res.body.role.value)
    ensures Login(res.(body := res.body.(role := Some(other)))) == Login(res)
  {
    UpperOfLower(other);
    UpperOfLower(res.body.role.value);
  }

  lemma UpperOfLower(s: string)
    ensures Upper(Lower(s)) == Upper(s)
  {
    assert forall i | 0 <= i < |s| :: UpperChar(LowerChar(s[i])) == UpperChar(s[i]);
  }

  /** A route other than "/" is one of the four dashboards, reached only
      after a successful login. */
  lemma DashboardOnlyAfterLogin(res: Fetched<LoginData>)
    requires Login(res).route != "/"
    ensures !LoginFailed(res) && Login(res).stored
    ensures Upper(res.body.role.value) in {"PLATFORM", "ADMIN", "CSR", "PIN"}
  {
  }
}
