/** The PIN's request form: which PIN the request is for, the categories to
    choose from, field updates, and the submit with its validation, payload
    and reply decoding. The body is read as text and parsed as JSON, with the
    raw text standing in when it does not parse, so a `Text` body is either a
    JSON string or text that is not JSON. */
module PinRequestForm {
  import opened Common
  import opened Client

  predicate AllDigits(t: string) {
    t != [] && forall i | 0 <= i < |t| :: '0' <= t[i] <= '9'
  }

  /** `Number(s)` for the forms the model reads: blank is 0, decimal digits
      after an optional sign are that integer, anything else is None (NaN). */
  function NumberOf(s: string): (n: Option<int>)
    ensures IsBlank(s) ==> n == Some(0)
    ensures AllDigits(Strip(s)) ==> n == Some(DecimalValue(Strip(s)))
    ensures |Strip(s)| > 1 && Strip(s)[0] == '+' && AllDigits(Strip(s)[1..]) ==>
              n == Some(DecimalValue(Strip(s)[1..]))
    ensures |Strip(s)| > 1 && Strip(s)[0] == '-' && AllDigits(Strip(s)[1..]) ==>
              n == Some(-(DecimalValue(Strip(s)[1..]) as int))
    ensures n.Some? && n.value < 0 ==> Strip(s)[0] == '-'
  {
    if IsBlank(s) then Some(0)
    else
      var t := Strip(s);
      if AllDigits(t) then Some(DecimalValue(t))
      else if |t| > 1 && t[0] == '+' && AllDigits(t[1..]) then Some(DecimalValue(t[1..]))
      else if |t| > 1 && t[0] == '-' && AllDigits(t[1..]) then Some(-(DecimalValue(t[1..]) as int))
      else None
  }

  /** A parameter with a plus sign names the same PIN as without it. */
  lemma PlusSignIgnored(digits: string)
    requires AllDigits(digits)
    ensures NumberOf("+" + digits) == NumberOf(digits)
  {
    StripBlankFree("+" + digits);
    StripBlankFree(digits);
    assert ("+" + digits)[1..] == digits;
  }

  /** `resolvedPinId`: the stored user's id when it is truthy, else the `id`
      query parameter when it is non-empty and a number, else nothing. */
  function ResolvePinId(storedId: Option<int>, paramId: Option<string>): (r: Option<int>)
    ensures IntTruthy(storedId) ==> r == storedId
    ensures !IntTruthy(storedId) && paramId.Some? && paramId.value != [] && NumberOf(paramId.value).Some? ==>
              r == NumberOf(paramId.value)
    ensures !IntTruthy(storedId) && !(paramId.Some? && paramId.value != [] && NumberOf(paramId.value).Some?) ==>
              r.None?
    ensures r.Some? ==> IntTruthy(storedId) || (paramId.Some? && paramId.value != [])
  {
    if IntTruthy(storedId) then storedId
    else if paramId.Some? && paramId.value != [] && NumberOf(paramId.value).Some? then NumberOf(paramId.value)
    else None
  }

  /** A stored user always wins over the query parameter. */
  lemma StoredUserWins(id: int, paramId: Option<string>)
    requires id != 0
    ensures ResolvePinId(Some(id), paramId) == Some(id)
  {
  }

  datatype FormState = FormState(pinUserId: Option<int>, title: string, description: string, categoryId: Option<int>)

  /** The sync effect: a truthy resolved id that differs replaces the form's. */
  function Synced(f: FormState, resolved: Option<int>): (g: FormState)
    ensures IntTruthy(resolved) ==> g == f.(pinUserId := resolved)
    ensures !IntTruthy(resolved) ==> g == f
  {
    if IntTruthy(resolved) && f.pinUserId != resolved then f.(pinUserId := resolved) else f
  }

  /** One `update(k, v)` call. */
  datatype FieldValue = PinUserId(id: Option<int>) | Title(s: string) | Description(s: string) | CategoryId(c: Option<int>)

  function Update(f: FormState, v: FieldValue): (g: FormState)
    ensures v.PinUserId? ==> g == f.(pinUserId := v.id)
    ensures v.Title? ==> g == f.(title := v.s)
    ensures v.Description? ==> g == f.(description := v.s)
    ensures v.CategoryId? ==> g == f.(categoryId := v.c)
  {
    match v
    case PinUserId(id) => f.(pinUserId := id)
    case Title(s) => f.(title := s)
    case Description(s) => f.(description := s)
    case CategoryId(c) => f.(categoryId := c)
  }

  datatype CategoryItem = CategoryItem(id: int, name: string)

  datatype Screen = Screen(categories: seq<CategoryItem>, loadingCategories: bool, error: Option<string>)

  function AfterCategories(s: Screen, res: Fetched<seq<CategoryItem>>): (u: Screen)
    ensures !u.loadingCategories
    ensures Succeeded(res) ==> u == s.(categories := res.body, loadingCategories := false)
    ensures !Succeeded(res) ==> u == s.(error := Some("Failed to load categories."), loadingCategories := false)
  {
    if Succeeded(res) then s.(categories := res.body, loadingCategories := false)
    else s.(error := Some("Failed to load categories."), loadingCategories := false)
  }

  /** The JSON body of the POST; its status is always "pending". */
  datatype Payload = Payload(pinUserId: int, title: string, description: Option<string>, categoryId: Option<int>, status: string)

  const MissingPin := "Missing PIN user id. Please sign in as a PIN user or add ?id=<pin_user_id> to the URL."

  function PayloadOf(f: FormState): (p: Payload)
    requires f.pinUserId.Some?
    ensures p.status == "pending" && p.pinUserId == f.pinUserId.value && p.categoryId == f.categoryId
    ensures p.title == Strip(f.title)
    ensures p.description.None? <==> IsBlank(f.description)
    ensures p.description.Some? ==> p.description.value == Strip(f.description)
  {
    Payload(f.pinUserId.value, Strip(f.title), if IsBlank(f.description) then None else Some(Strip(f.description)),
            f.categoryId, "pending")
  }

  datatype Outcome = Outcome(sent: Option<Payload>, alert: string, route: Option<string>)

  /** The decoding of the reply to a sent payload: success needs an OK
      status and a body that parses to `true`, and goes to the PIN's
      dashboard; any other reply shows its string, or the default. */
  function Decode(p: Payload, res: Fetched<ReplyBody>): (o: Outcome)
    ensures o.sent == Some(p)
    ensures o.route.Some? <==> Succeeded(res) && res.body == True
    ensures o.route.Some? ==>
              o.alert == "\U{2705} Request created successfully!"
              && o.route.value == "/pin/dashboard/user?id=" + IntToString(p.pinUserId)
    ensures o.route.None? && res.Response? ==>
              o.alert == "\U{274C} " + (if res.body.Text? then res.body.s else "Failed to create request")
    ensures res.Thrown? ==> o.alert == "\U{274C} Failed to create request. Check console for details."
  {
    match res
    case Thrown(_) => Outcome(Some(p), "\U{274C} Failed to create request. Check console for details.", None)
    case Response(ok, _, _, body) =>
      if ok && body == True then
        Outcome(Some(p), "\U{2705} Request created successfully!", Some("/pin/dashboard/user?id=" + IntToString(p.pinUserId)))
      else Outcome(Some(p), "\U{274C} " + (if body.Text? then body.s else "Failed to create request"), None)
  }

  /** `handleSubmit`: nothing is sent without a PIN id or a title; otherwise
      the payload is sent and the reply decoded. */
  function Submit(f: FormState, res: Fetched<ReplyBody>): (o: Outcome)
    ensures !IntTruthy(f.pinUserId) ==> o == Outcome(None, MissingPin, None)
    ensures IntTruthy(f.pinUserId) && IsBlank(f.title) ==> o == Outcome(None, "Title is required", None)
    ensures o.sent.Some? <==> IntTruthy(f.pinUserId) && !IsBlank(f.title)
    ensures o.sent.Some? ==> o.sent == Some(PayloadOf(f))
    ensures o.route.Some? <==> o.sent.Some? && Succeeded(res) && res.body == True
    ensures o.route.Some? ==>
              o.alert == "\U{2705} Request created successfully!"
              && o.route.value == "/pin/dashboard/user?id=" + IntToString(f.pinUserId.value)
    ensures o.sent.Some? && o.route.None? && res.Response? ==>
              o.alert == "\U{274C} " + (if res.body.Text? then res.body.s else "Failed to create request")
    ensures o.sent.Some? && res.Thrown? ==> o.alert == "\U{274C} Failed to create request. Check console for details."
  {
    if !IntTruthy(f.pinUserId) then Outcome(None, MissingPin, None)
    else if IsBlank(f.title) then Outcome(None, "Title is required", None)
    else Decode(PayloadOf(f), res)
  }

  /** A string reply is never a success, even with an OK status. */
  lemma StringReplyFails(f: FormState, ok: bool, status: int, text: string, s: string)
    ensures Submit(f, Response(ok, status, text, Text(s))).route.None?
  {
  }

  class Page {
    var form: FormState
    var categories: seq<CategoryItem>
    var loadingCategories: bool
    var error: Option<string>
    var submitting: bool
    const resolvedPinId: Option<int>

    function State(): Screen
      reads this
    {
      Screen(categories, loadingCategories, error)
    }

    constructor (storedId: Option<int>, paramId: Option<string>)
      ensures resolvedPinId == ResolvePinId(storedId, paramId)
      ensures form == FormState(resolvedPinId, "", "", None)
      ensures State() == Screen([], false, None) && !submitting
    {
      resolvedPinId := ResolvePinId(storedId, paramId);
      form := FormState(ResolvePinId(storedId, paramId), "", "", None);
      categories, loadingCategories, error, submitting := [], false, None, false;
    }

    method SyncPinUserId()
      modifies this
      ensures form == Synced(old(form), resolvedPinId)
      ensures State() == old(State()) && submitting == old(submitting)
    {
      if IntTruthy(resolvedPinId) && form.pinUserId != resolvedPinId {
        form := form.(pinUserId := resolvedPinId);
      }
    }

    method FetchCategories(res: Fetched<seq<CategoryItem>>)
      modifies this
      ensures State() == AfterCategories(old(State()), res)
      ensures form == old(form) && submitting == old(submitting)
    {
      loadingCategories := true;
      if Succeeded(res) {
        categories := res.body;
      } else {
        error := Some("Failed to load categories.");
      }
      loadingCategories := false;
    }

    method OnChange(v: FieldValue)
      modifies this
      ensures form == Update(old(form), v)
      ensures State() == old(State()) && submitting == old(submitting)
    {
      form := Update(form, v);
    }

    method HandleSubmit(res: Fetched<ReplyBody>) returns (o: Outcome)
      modifies this`submitting
      ensures o == Submit(old(form), res)
      ensures submitting == (old(submitting) && o.sent.None?)
    {
      if !IntTruthy(form.pinUserId) {
        return Outcome(None, MissingPin, None);
      }
      if IsBlank(form.title) {
        return Outcome(None, "Title is required", None);
      }
      var payload := PayloadOf(form);
      submitting := true;
      o := Decode(payload, res);
      submitting := false;
    }
  }
}
