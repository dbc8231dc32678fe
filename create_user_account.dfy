/** The user admin's account form: field updates, the validation of a
    submit, its payload, and the decoding of the reply. A reply whose body
    does not parse as JSON is a `Thrown` call. */
module CreateUserAccount {
  import opened Common
  import opened Client

  datatype FormState = FormState(username: string, emailAddress: string, role: Option<string>,
                                 status: string, password: string)

  const InitialForm := FormState("", "", None, "active", "")

  /** One `update(k, v)` call: the field and its new value. */
  datatype FieldValue =
    | Username(s: string) | EmailAddress(s: string) | Role(role: Option<string>)
    | Status(s: string) | Password(s: string)

  /** `update(k, v)`: field `k` takes `v`, every other field is kept. */
  function Update(f: FormState, v: FieldValue): (g: FormState)
    ensures v.Username? ==> g == f.(username := v.s)
    ensures v.EmailAddress? ==> g == f.(emailAddress := v.s)
    ensures v.Role? ==> g == f.(role := v.role)
    ensures v.Status? ==> g == f.(status := v.s)
    ensures v.Password? ==> g == f.(password := v.s)
  {
    match v
    case Username(s) => f.(username := s)
    case EmailAddress(s) => f.(emailAddress := s)
    case Role(r) => f.(role := r)
    case Status(s) => f.(status := s)
    case Password(s) => f.(password := s)
  }

  /** The first field the form complains about, in the order checked. */
  function Complaint(f: FormState): (c: Option<string>)
    ensures IsBlank(f.username) ==> c == Some("Username is required")
    ensures !IsBlank(f.username) && IsBlank(f.emailAddress) ==> c == Some("Email is required")
    ensures !IsBlank(f.username) && !IsBlank(f.emailAddress) && IsBlank(f.password) ==> c == Some("Password is required")
    ensures c.None? <==> !IsBlank(f.username) && !IsBlank(f.emailAddress) && !IsBlank(f.password)
  {
    if IsBlank(f.username) then Some("Username is required")
    else if IsBlank(f.emailAddress) then Some("Email is required")
    else if IsBlank(f.password) then Some("Password is required")
    else None
  }

  /** The JSON body of the POST. */
  datatype Payload = Payload(username: string, emailAddress: string, status: string, role: Option<string>, password: string)

  /** Username and email are trimmed, the password is sent as typed. */
  function PayloadOf(f: FormState): (p: Payload)
    ensures p.username == Strip(f.username) && p.emailAddress == Strip(f.emailAddress)
    ensures p.password == f.password && p.role == f.role && p.status == f.status
  {
    Payload(Strip(f.username), Strip(f.emailAddress), f.status, f.role, f.password)
  }

  /** What a submit does: the payload it posts, the alert, and the route it
      navigates to. */
  datatype Outcome = Outcome(sent: Option<Payload>, alert: string, route: Option<string>)

  const Created := "\U{2705} User created successfully!"
  const Broken := "\U{274C} Failed to create user. Check console for details."

  /** `handleSubmit`: a complaint stops it before any request; a failed call
      or a non-OK status shows the generic failure; `true` goes to the
      dashboard; a string is shown as a warning. */
  function Submit(f: FormState, res: Fetched<ReplyBody>): (o: Outcome)
    ensures Complaint(f).Some? ==> o == Outcome(None, Complaint(f).value, None)
    ensures Complaint(f).None? ==> o.sent == Some(PayloadOf(f))
    ensures o.route.Some? <==> Complaint(f).None? && Succeeded(res) && res.body == True
    ensures o.route.Some? ==> o.route.value == "/ua/dashboard" && o.alert == Created
    ensures Complaint(f).None? && !Succeeded(res) ==> o.alert == Broken
    ensures Complaint(f).None? && Succeeded(res) && res.body.Text? ==> o.alert == "\U{26A0}\U{FE0F} " + res.body.s
    ensures Complaint(f).None? && Succeeded(res) && !res.body.True? && !res.body.Text? ==>
              o.alert == "\U{274C} Unexpected response from server."
  {
    if Complaint(f).Some? then Outcome(None, Complaint(f).value, None)
    else
      var p := Some(PayloadOf(f));
      if !Succeeded(res) then Outcome(p, Broken, None)
      else match res.body
        case True => Outcome(p, Created, Some("/ua/dashboard"))
        case Text(m) => Outcome(p, "\U{26A0}\U{FE0F} " + m, None)
        case _ => Outcome(p, "\U{274C} Unexpected response from server.", None)
  }

  /** Changing a field the complaint is not about keeps the complaint. */
  lemma PasswordEditKeepsEarlierComplaints(f: FormState, s: string)
    requires IsBlank(f.username) || IsBlank(f.emailAddress)
    ensures Complaint(Update(f, Password(s))) == Complaint(f)
  {
  }

  /** A form filled in from the initial one by updates to the three required
      fields is sent exactly when none of them is blank. */
  lemma FilledFormIsSent(u: string, e: string, p: string, res: Fetched<ReplyBody>)
    ensures var f := Update(Update(Update(InitialForm, Username(u)), EmailAddress(e)), Password(p));
            Submit(f, res).sent.Some? <==> !IsBlank(u) && !IsBlank(e) && !IsBlank(p)
  {
  }

  class Page {
    var form: FormState
    var submitting: bool

    constructor ()
      ensures form == InitialForm && !submitting
    {
      form, submitting := InitialForm, false;
    }

    method OnChange(v: FieldValue)
      modifies this
      ensures form == Update(old(form), v) && submitting == old(submitting)
    {
      form := Update(form, v);
    }

    /** `submitting` is raised only around the call and lowered after it. */
    method HandleSubmit(res: Fetched<ReplyBody>) returns (o: Outcome)
      modifies this`submitting
      ensures o == Submit(old(form), res)
      ensures submitting == (old(submitting) && Complaint(old(form)).Some?)
    {
      var complaint := Complaint(form);
      if complaint.Some? {
        return Outcome(None, complaint.value, None);
      }
      var payload := PayloadOf(form);
      assert Submit(form, res).sent == Some(payload);
      submitting := true;
      if !Succeeded(res) {
        o := Outcome(Some(payload), Broken, None);
      } else if res.body.True? {
        o := Outcome(Some(payload), Created, Some("/ua/dashboard"));
      } else if res.body.Text? {
        o := Outcome(Some(payload), "\U{26A0}\U{FE0F} " + res.body.s, None);
      } else {
        o := Outcome(Some(payload), "\U{274C} Unexpected response from server.", None);
      }
      submitting := false;
    }
  }
}
