/** The assignment page of the platform manager: all requests split into
    pending and assigned lists, the assign dialog with the shortlisted CSRs,
    assigning one of them at random, and marking a request completed.
    `Math.random()` is a parameter `u` with 0 <= u < 1. */
module Assignment {
  import opened Common
  import opened Seqs
  import opened Client

  datatype Item = Item(id: int, title: string, status: string, assignedTo: Option<int>)

  datatype CsrItem = CsrItem(userId: int, name: string)

  predicate IsPending(r: Item) { r.status == "pending" }
  predicate IsAssigned(r: Item) { r.status == "assigned" }
  predicate IsPendingOrAssigned(r: Item) { IsPending(r) || IsAssigned(r) }

  /** The `pendingRequests` memo. */
  function PendingRequests(requests: seq<Item>): (r: seq<Item>)
    ensures forall x :: x in r <==> x in requests && x.status == "pending"
  {
    Filter(requests, IsPending)
  }

  /** The `assignedRequests` memo. */
  function AssignedRequests(requests: seq<Item>): (r: seq<Item>)
    ensures forall x :: x in r <==> x in requests && x.status == "assigned"
  {
    Filter(requests, IsAssigned)
  }

  /** The two lists never share a request, and between them they hold at
      most all the requests. */
  lemma PendingAndAssignedDisjoint(requests: seq<Item>)
    ensures forall x | x in PendingRequests(requests) :: x !in AssignedRequests(requests)
    ensures |PendingRequests(requests)| + |AssignedRequests(requests)| == Count(requests, IsPendingOrAssigned)
    ensures |PendingRequests(requests)| + |AssignedRequests(requests)| <= |requests|
  {
    CountSplit(requests, IsPending, IsAssigned, IsPendingOrAssigned);
  }

  /** `Math.floor(u * n)` for a `u` drawn from [0, 1). */
  function RandomIndex(u: real, n: nat): (i: int)
    requires 0.0 <= u < 1.0 && n > 0
    ensures 0 <= i < n
  {
    var x := u * (n as real);
    ScaledBelow(u, n as real);
    assert x.Floor as real <= x;
    assert x.Floor as real < n as real;
    x.Floor
  }

  /** A fraction in [0, 1) of a positive number lies in [0, that number). */
  lemma ScaledBelow(u: real, n: real)
    requires 0.0 <= u < 1.0 && n > 0.0
    ensures 0.0 <= u * n < n
  {
    var d := 1.0 - u;
    assert d > 0.0;
    assert d * n > 0.0;
    assert u * n == n - d * n;
  }

  datatype Screen = Screen(
    requests: seq<Item>, loading: bool, error: Option<string>, assignOpen: bool,
    selected: Option<Item>, csrOptions: seq<CsrItem>, saving: bool)

  function AfterFetch(s: Screen, res: Fetched<seq<Item>>): (u: Screen)
    ensures !u.loading
    ensures Succeeded(res) ==> u == s.(requests := res.body, loading := false, error := None)
    ensures !Succeeded(res) ==>
              u == s.(loading := false, error := Some(HttpFailure(res, "Failed to fetch requests")))
  {
    if Succeeded(res) then s.(requests := res.body, loading := false, error := None)
    else s.(loading := false, error := Some(HttpFailure(res, "Failed to fetch requests")))
  }

  /** `handleOpenAssign`: the dialog opens on the request, and the options
      are the request's `shortlistees`, or none when that call fails or the
      field is missing. */
  function OpenAssign(s: Screen, req: Item, res: Fetched<Option<seq<CsrItem>>>): (u: Screen)
    ensures u.selected == Some(req) && u.assignOpen
    ensures Succeeded(res) ==> u.csrOptions == ListOrEmpty(res.body)
    ensures !Succeeded(res) ==> u.csrOptions == []
    ensures u == s.(selected := Some(req), assignOpen := true, csrOptions := u.csrOptions)
  {
    s.(selected := Some(req), assignOpen := true,
       csrOptions := if Succeeded(res) then ListOrEmpty(res.body) else [])
  }

  /** The PUT body of an assignment. */
  datatype AssignCall = AssignCall(requestId: int, assignedTo: int, status: string)

  /** `handleAssignRandom` up to the PUT: nothing without a selected request
      or without options; otherwise a CSR drawn from the options. */
  function StartAssign(s: Screen, u: real): (r: (Option<AssignCall>, Screen))
    requires 0.0 <= u < 1.0
    ensures s.selected.None? || s.csrOptions == [] ==> r == (None, s)
    ensures s.selected.Some? && s.csrOptions != [] ==>
              && r.0.Some?
              && r.0.value.requestId == s.selected.value.id
              && r.0.value.status == "assigned"
              && (exists c | c in s.csrOptions :: c.userId == r.0.value.assignedTo)
              && r.1 == s.(saving := true)
  {
    if s.selected.None? || s.csrOptions == [] then (None, s)
    else
      var chosen := s.csrOptions[RandomIndex(u, |s.csrOptions|)];
      (Some(AssignCall(s.selected.value.id, chosen.userId, "assigned")), s.(saving := true))
  }

  /** With a single option, the draw always picks it. */
  lemma SingleOptionIsChosen(s: Screen, u: real)
    requires 0.0 <= u < 1.0 && s.selected.Some? && |s.csrOptions| == 1
    ensures StartAssign(s, u).0 == Some(AssignCall(s.selected.value.id, s.csrOptions[0].userId, "assigned"))
  {
  }

  /** What a handler does after its PUT: whether the list is fetched again,
      what it alerts, and the new state. */
  datatype Effect = Effect(refetch: bool, alert: Option<string>, screen: Screen)

  function FinishAssign(s: Screen, res: Fetched<ReplyBody>): (e: Effect)
    ensures !e.screen.saving
    ensures e.refetch <==> Succeeded(res)
    ensures Succeeded(res) ==> e == Effect(true, None, s.(assignOpen := false, selected := None, saving := false))
    ensures !Succeeded(res) ==>
              e == Effect(false, Some(FailureMessage(res, "Failed to assign request")), s.(saving := false))
  {
    if Succeeded(res) then Effect(true, None, s.(assignOpen := false, selected := None, saving := false))
    else Effect(false, Some(FailureMessage(res, "Failed to assign request")), s.(saving := false))
  }

  /** The PUT body of a completion: the status alone. */
  datatype CompleteCall = CompleteCall(requestId: int, status: string)

  function CompleteStep(req: Item, confirmed: bool, res: Fetched<ReplyBody>): (r: (Option<CompleteCall>, bool, Option<string>))
    ensures !confirmed ==> r == (None, false, None)
    ensures confirmed ==> r.0 == Some(CompleteCall(req.id, "completed"))
    ensures confirmed ==> (r.1 <==> Succeeded(res))
    ensures confirmed && !Succeeded(res) ==> r.2 == Some(FailureMessage(res, "Failed to complete request"))
    ensures Succeeded(res) ==> r.2.None?
  {
    if !confirmed then (None, false, None)
    else if Succeeded(res) then (Some(CompleteCall(req.id, "completed")), true, None)
    else (Some(CompleteCall(req.id, "completed")), false, Some(FailureMessage(res, "Failed to complete request")))
  }

  class Page {
    var requests: seq<Item>
    var loading: bool
    var error: Option<string>
    var assignOpen: bool
    var selected: Option<Item>
    var csrOptions: seq<CsrItem>
    var saving: bool

    function State(): Screen
      reads this
    {
      Screen(requests, loading, error, assignOpen, selected, csrOptions, saving)
    }

    constructor ()
      ensures State() == Screen([], false, None, false, None, [], false)
    {
      requests, loading, error := [], false, None;
      assignOpen, selected, csrOptions, saving := false, None, [], false;
    }

    method FetchRequests(res: Fetched<seq<Item>>)
      modifies this
      ensures State() == AfterFetch(old(State()), res)
    {
      loading, error := true, None;
      if !Succeeded(res) {
        loading, error := false, Some(HttpFailure(res, "Failed to fetch requests"));
        return;
      }
      requests, loading := res.body, false;
    }

    method HandleOpenAssign(req: Item, res: Fetched<Option<seq<CsrItem>>>)
      modifies this
      ensures State() == OpenAssign(old(State()), req, res)
    {
      selected, assignOpen := Some(req), true;
      if Succeeded(res) {
        csrOptions := ListOrEmpty(res.body);
      } else {
        csrOptions := [];
      }
    }

    method BeginAssignRandom(u: real) returns (call: Option<AssignCall>)
      requires 0.0 <= u < 1.0
      modifies this
      ensures (call, State()) == StartAssign(old(State()), u)
    {
      if selected.None? || |csrOptions| == 0 {
        return None;
      }
      var randomCsr := csrOptions[RandomIndex(u, |csrOptions|)];
      saving := true;
      call := Some(AssignCall(selected.value.id, randomCsr.userId, "assigned"));
    }

    method EndAssignRandom(res: Fetched<ReplyBody>) returns (refetch: bool, alert: Option<string>)
      modifies this
      ensures Effect(refetch, alert, State()) == FinishAssign(old(State()), res)
    {
      refetch, alert := false, None;
      if !Succeeded(res) {
        alert := Some(FailureMessage(res, "Failed to assign request"));
      } else {
        refetch := true;
        assignOpen, selected := false, None;
      }
      saving := false;
    }
  }
}
