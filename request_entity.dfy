/** The request operations of the PIN/CSR entity: deleting, editing and
    creating a PIN's request, the CSR shortlist, the view counter, assignment
    and status change, and the CSR listing with its shortlist flags.
    Each operation is a function from the database before to its reply and
    the database after (the decision logic), and an `Apply...` method that
    performs the same change in place on a Db, step by step as the entity
    does, proved equal to that function. */
module RequestEntity {
  import opened Common
  import opened Seqs
  import opened Models

  // ---------------------------------------------------------------------
  // delete_pin_request
  // ---------------------------------------------------------------------

  function DeletePinRequest(t: Tables, requestId: int): (o: Outcome)
    requires Consistent(t)
    ensures Consistent(o.tables)
    ensures requestId !in t.requests ==> o == Outcome(Err("Request not found"), t)
    ensures requestId in t.requests && t.requests[requestId].status != Pending ==>
              o == Outcome(Err("Cannot delete a '" + t.requests[requestId].status + "' request"), t)
    ensures o.reply == Ok <==> requestId in t.requests && t.requests[requestId].status == Pending
    ensures o.reply == Ok ==> o.tables.requests == t.requests - {requestId}
    ensures o.reply == Ok ==> forall p | p in o.tables.shortlists :: p.requestId != requestId
    ensures o.reply == Ok ==> o.tables == DeleteRequestRow(t, requestId)
  {
    if requestId !in t.requests then Outcome(Err("Request not found"), t)
    else if t.requests[requestId].status != Pending then
      Outcome(Err("Cannot delete a '" + t.requests[requestId].status + "' request"), t)
    else Outcome(Ok, DeleteRequestRow(t, requestId))
  }

  method ApplyDeletePinRequest(db: Db, requestId: int) returns (r: Reply)
    requires db.Valid()
    modifies db
    ensures Outcome(r, db.State()) == DeletePinRequest(old(db.State()), requestId)
    ensures db.Valid()
  {
    var t := db.State();
    if requestId !in db.requests {
      return Err("Request not found");
    }
    var req := db.requests[requestId];
    if req.status != Pending {
      return Err("Cannot delete a '" + req.status + "' request");
    }
    db.Store(DeleteRequestRow(t, requestId));
    r := Ok;
  }

  // ---------------------------------------------------------------------
  // update_pin_request
  // ---------------------------------------------------------------------

  /** The request exists and its status lower-cases to "pending". */
  predicate Editable(t: Tables, requestId: int) {
    requestId in t.requests && Lower(t.requests[requestId].status) == Pending
  }

  /** The title guard: present and not blank after strip. */
  predicate TitleOk(title: Option<string>) {
    title.Some? && !IsBlank(title.value)
  }

  function EditedRequest(r: Request, title: string, description: Option<string>,
                         categoryId: Option<int>): Request
  {
    r.(title := Strip(title),
       description := if StrTruthy(description) then Some(Strip(description.value)) else None,
       categoryId := if IntTruthy(categoryId) then categoryId else None)
  }

  function UpdatePinRequest(t: Tables, requestId: int, title: Option<string>,
                            description: Option<string>, categoryId: Option<int>): (o: Outcome)
    requires Consistent(t)
    ensures Consistent(o.tables)
    ensures o.reply != Ok ==> o.tables == t
    ensures o.reply.Ok? || o.reply.Err?
    ensures requestId !in t.requests ==> o.reply == Err("Request not found")
    ensures requestId in t.requests && !Editable(t, requestId) ==>
              o.reply == Err("Cannot update a '" + t.requests[requestId].status + "' request")
    ensures Editable(t, requestId) && !TitleOk(title) ==> o.reply == Err("Title cannot be empty")
    ensures Editable(t, requestId) && TitleOk(title) && IntTruthy(categoryId)
            && categoryId.value !in t.categories ==>
              o.reply == Err("Category with ID " + IntToString(categoryId.value) + " does not exist")
    ensures o.reply == Ok <==>
              Editable(t, requestId) && TitleOk(title)
              && (IntTruthy(categoryId) ==> categoryId.value in t.categories)
    ensures o.reply == Ok ==>
              requestId in t.requests && requestId in o.tables.requests &&
              var r0 := t.requests[requestId];
              var r1 := o.tables.requests[requestId];
              && o.tables == t.(requests := t.requests[requestId := r1])
              && r1.title == Strip(title.value) && r1.title != []
              && r1.description == (if StrTruthy(description) then Some(Strip(description.value)) else None)
              && r1.categoryId == (if IntTruthy(categoryId) then categoryId else None)
              && r1 == r0.(title := r1.title, description := r1.description, categoryId := r1.categoryId)
  {
    if requestId !in t.requests then Outcome(Err("Request not found"), t)
    else
      var req := t.requests[requestId];
      if Lower(req.status) != Pending then
        Outcome(Err("Cannot update a '" + req.status + "' request"), t)
      else if title.None? || IsBlank(title.value) then Outcome(Err("Title cannot be empty"), t)
      else if IntTruthy(categoryId) && categoryId.value !in t.categories then
        Outcome(Err("Category with ID " + IntToString(categoryId.value) + " does not exist"), t)
      else
        Outcome(Ok, PutRequest(t, requestId, EditedRequest(req, title.value, description, categoryId)))
  }

  method ApplyUpdatePinRequest(db: Db, requestId: int, title: Option<string>,
                               description: Option<string>, categoryId: Option<int>)
    returns (r: Reply)
    requires db.Valid()
    modifies db
    ensures Outcome(r, db.State()) ==
            UpdatePinRequest(old(db.State()), requestId, title, description, categoryId)
    ensures db.Valid()
  {
    var t := db.State();
    if requestId !in db.requests {
      return Err("Request not found");
    }
    var req := db.requests[requestId];
    if Lower(req.status) != Pending {
      return Err("Cannot update a '" + req.status + "' request");
    }
    if title.None? || IsBlank(title.value) {
      return Err("Title cannot be empty");
    }
    if IntTruthy(categoryId) && categoryId.value !in db.categories {
      return Err("Category with ID " + IntToString(categoryId.value) + " does not exist");
    }
    req := req.(title := Strip(title.value));
    req := req.(description := if StrTruthy(description) then Some(Strip(description.value)) else None);
    req := req.(categoryId := if IntTruthy(categoryId) then categoryId else None);
    db.Store(PutRequest(t, requestId, req));
    r := Ok;
  }

  // ---------------------------------------------------------------------
  // create_pin_request
  // ---------------------------------------------------------------------

  /** `form_data["pin_user_id"]` and `form_data["title"]` are indexed, so a
      missing key raises KeyError, which the `except SQLAlchemyError` does
      not catch; a null key, an unknown PIN or an unknown category is
      rejected by the database and caught. */
  function CreatePinRequest(t: Tables, pinUserId: JsonField<int>, title: JsonField<string>,
                            description: Option<string>, categoryId: Option<int>, now: int)
    : (o: Outcome)
    requires Consistent(t)
    ensures Consistent(o.tables)
    ensures o.reply != Ok ==> o.tables == t
    ensures pinUserId.Missing? || title.Missing? ==> o.reply == Crash
    ensures !pinUserId.Missing? && !title.Missing? && o.reply != Ok ==>
              o.reply == Fail("Failed to create request: ")
    ensures o.reply == Ok <==>
              pinUserId.Present? && title.Present? && pinUserId.value in t.pins
              && RefOk(categoryId, t.categories)
    ensures o.reply == Ok ==>
              t.nextRequestId in o.tables.requests &&
              var id := t.nextRequestId;
              var r := o.tables.requests[id];
              && id !in t.requests
              && o.tables == t.(requests := t.requests[id := r], nextRequestId := id + 1)
              && r.status == Pending && r.view == 0
              && r.assignedTo == None && r.completedAt == None
              && r.pinUserId == pinUserId.value && r.title == title.value
              && r.description == description && r.categoryId == categoryId
              && r.createdAt == now
  {
    if pinUserId.Missing? || title.Missing? then Outcome(Crash, t)
    else if pinUserId.Null? || title.Null? then Outcome(Fail("Failed to create request: "), t)
    else if pinUserId.value !in t.pins || !RefOk(categoryId, t.categories) then
      Outcome(Fail("Failed to create request: "), t)
    else
      Outcome(Ok, InsertRequest(t, NewRequest(pinUserId.value, title.value, description, categoryId, now)))
  }

  method ApplyCreatePinRequest(db: Db, pinUserId: JsonField<int>, title: JsonField<string>,
                               description: Option<string>, categoryId: Option<int>, now: int)
    returns (r: Reply)
    requires db.Valid()
    modifies db
    ensures Outcome(r, db.State()) ==
            CreatePinRequest(old(db.State()), pinUserId, title, description, categoryId, now)
    ensures db.Valid()
  {
    var t := db.State();
    if pinUserId.Missing? || title.Missing? {
      return Crash;
    }
    if pinUserId.Null? || title.Null? {
      return Fail("Failed to create request: ");
    }
    var row := NewRequest(pinUserId.value, title.value, description, categoryId, now);
    if row.pinUserId !in db.pins || !RefOk(row.categoryId, db.categories) {
      return Fail("Failed to create request: ");
    }
    db.Store(InsertRequest(t, row));
    r := Ok;
  }

  // ---------------------------------------------------------------------
  // shortlist_csr_requests / remove_from_shortlist
  // ---------------------------------------------------------------------

  function ShortlistCsrRequest(t: Tables, requestId: int, csrId: Option<int>): (o: Outcome)
    requires Consistent(t)
    ensures Consistent(o.tables)
    ensures o.reply != Ok ==> o.tables == t
    ensures !IntTruthy(csrId) || requestId !in t.requests ==> o.reply == Err("Request not found")
    ensures IntTruthy(csrId) && requestId in t.requests
            && Pair(csrId.value, requestId) in t.shortlists ==>
              o.reply == Err("Request already shortlisted")
    ensures IntTruthy(csrId) && requestId in t.requests
            && Pair(csrId.value, requestId) !in t.shortlists && csrId.value !in t.csrs ==>
              o.reply == Fail("Failed to add to shortlist: ")
    ensures o.reply == Ok <==>
              IntTruthy(csrId) && requestId in t.requests
              && Pair(csrId.value, requestId) !in t.shortlists && csrId.value in t.csrs
    ensures o.reply == Ok ==>
              o.tables == t.(shortlists := t.shortlists + {Pair(csrId.value, requestId)})
  {
    if !IntTruthy(csrId) then Outcome(Err("Request not found"), t)
    else if requestId !in t.requests then Outcome(Err("Request not found"), t)
    else
      var p := Pair(csrId.value, requestId);
      if p in t.shortlists then Outcome(Err("Request already shortlisted"), t)
      else if p.csrUserId !in t.csrs then Outcome(Fail("Failed to add to shortlist: "), t)
      else Outcome(Ok, AddPair(t, p))
  }

  method ApplyShortlistCsrRequest(db: Db, requestId: int, csrId: Option<int>) returns (r: Reply)
    requires db.Valid()
    modifies db
    ensures Outcome(r, db.State()) == ShortlistCsrRequest(old(db.State()), requestId, csrId)
    ensures db.Valid()
  {
    var t := db.State();
    if !IntTruthy(csrId) {
      return Err("Request not found");
    }
    if requestId !in db.requests {
      return Err("Request not found");
    }
    var p := Pair(csrId.value, requestId);
    if p in db.shortlists {
      return Err("Request already shortlisted");
    }
    if p.csrUserId !in db.csrs {
      return Fail("Failed to add to shortlist: ");
    }
    db.Store(AddPair(t, p));
    r := Ok;
  }

  function RemoveFromShortlist(t: Tables, requestId: int, csrId: int): (o: Outcome)
    requires Consistent(t)
    ensures Consistent(o.tables)
    ensures Pair(csrId, requestId) !in t.shortlists ==> o == Outcome(Err("Not shortlisted"), t)
    ensures Pair(csrId, requestId) in t.shortlists ==>
              o.reply == Ok && o.tables == t.(shortlists := t.shortlists - {Pair(csrId, requestId)})
  {
    var p := Pair(csrId, requestId);
    if p !in t.shortlists then Outcome(Err("Not shortlisted"), t)
    else Outcome(Ok, RemovePair(t, p))
  }

  method ApplyRemoveFromShortlist(db: Db, requestId: int, csrId: int) returns (r: Reply)
    requires db.Valid()
    modifies db
    ensures Outcome(r, db.State()) == RemoveFromShortlist(old(db.State()), requestId, csrId)
    ensures db.Valid()
  {
    var t := db.State();
    var p := Pair(csrId, requestId);
    if p !in db.shortlists {
      return Err("Not shortlisted");
    }
    db.Store(RemovePair(t, p));
    r := Ok;
  }

  /** A successful add followed by the matching remove gives back the
      database it started from. */
  lemma ShortlistThenRemove(t: Tables, requestId: int, csrId: Option<int>)
    requires Consistent(t)
    requires ShortlistCsrRequest(t, requestId, csrId).reply == Ok
    ensures RemoveFromShortlist(ShortlistCsrRequest(t, requestId, csrId).tables, requestId, csrId.value)
            == Outcome(Ok, t)
  {
    var p := Pair(csrId.value, requestId);
    assert t.shortlists + {p} - {p} == t.shortlists;
  }

  /** A successful remove followed by adding the same pair back gives back
      the database it started from. */
  lemma RemoveThenShortlist(t: Tables, requestId: int, csrId: int)
    requires Consistent(t)
    requires RemoveFromShortlist(t, requestId, csrId).reply == Ok
    requires csrId != 0
    ensures ShortlistCsrRequest(RemoveFromShortlist(t, requestId, csrId).tables, requestId, Some(csrId))
            == Outcome(Ok, t)
  {
    var p := Pair(csrId, requestId);
    assert t.shortlists - {p} + {p} == t.shortlists;
  }

  // ---------------------------------------------------------------------
  // increment_request_view
  // ---------------------------------------------------------------------

  function IncrementRequestView(t: Tables, requestId: int): (o: Outcome)
    requires Consistent(t)
    ensures Consistent(o.tables)
    ensures requestId !in t.requests ==> o == Outcome(Err("Request not found"), t)
    ensures requestId in t.requests ==> o.reply == Ok
    ensures requestId in t.requests && Lower(t.requests[requestId].status) != Pending ==> o.tables == t
    ensures requestId in t.requests && Lower(t.requests[requestId].status) == Pending ==>
              var r0 := t.requests[requestId];
              o.tables == t.(requests := t.requests[requestId := r0.(view := r0.view + 1)])
  {
    if requestId !in t.requests then Outcome(Err("Request not found"), t)
    else
      var req := t.requests[requestId];
      if req.status != [] && Lower(req.status) == Pending then
        Outcome(Ok, PutRequest(t, requestId, req.(view := req.view + 1)))
      else Outcome(Ok, t)
  }

  method ApplyIncrementRequestView(db: Db, requestId: int) returns (r: Reply)
    requires db.Valid()
    modifies db
    ensures Outcome(r, db.State()) == IncrementRequestView(old(db.State()), requestId)
    ensures db.Valid()
  {
    if requestId !in db.requests {
      return Err("Request not found");
    }
    var req := db.requests[requestId];
    if req.status != [] && Lower(req.status) == Pending {
      req := req.(view := req.view + 1);
      db.requests := db.requests[requestId := req];
    }
    r := Ok;
  }

  /** The view counter of a request changes by one at most. */
  lemma ViewGrowsByOne(t: Tables, requestId: int, k: int)
    requires Consistent(t) && k in t.requests
    ensures var u := IncrementRequestView(t, requestId).tables;
            k in u.requests
            && u.requests[k].view == t.requests[k].view
                 + (if k == requestId && Lower(t.requests[k].status) == Pending then 1 else 0)
  {
  }

  // ---------------------------------------------------------------------
  // update_request
  // ---------------------------------------------------------------------

  /** `update_request` as written: the random path reads `.user_id` of the
      chosen CSR and the explicit path filters on `CSR.user_id`, and the CSR
      model has neither, so once the two guards pass every path raises
      AttributeError into the `except` branch. Nothing is written. */
  function UpdateRequestAsWritten(t: Tables, requestId: int, assignedTo: Option<int>,
                                  status: JsonField<string>): (r: Reply)
    requires Consistent(t)
    ensures r != Ok
    ensures requestId !in t.requests ==> r == Err("Request not found")
    ensures requestId in t.requests && !IntTruthy(assignedTo) && Shortlistees(t, requestId) == {} ==>
              r == Err("No shortlistees available to assign")
    ensures requestId in t.requests && (IntTruthy(assignedTo) || Shortlistees(t, requestId) != {}) ==>
              r == Fail("Failed to update request: ")
  {
    if requestId !in t.requests then Err("Request not found")
    else if !IntTruthy(assignedTo) && Shortlistees(t, requestId) == {} then
      Err("No shortlistees available to assign")
    else Fail("Failed to update request: ")
  }

  /** The CSRs that shortlisted a request, ascending: the list `random.choice`
      picks from. */
  function ShortlisteeList(t: Tables, requestId: int): (l: seq<int>)
    requires Consistent(t)
    ensures forall c :: c in l <==> c in Shortlistees(t, requestId)
  {
    forall c | c in Shortlistees(t, requestId) ensures 0 < c < t.nextCsrId {
      var p :| p in t.shortlists && p.requestId == requestId && p.csrUserId == c;
    }
    IdsUpTo(Shortlistees(t, requestId), t.nextCsrId)
  }

  /** `random.choice(req.shortlistees)`, with the random draw as `roll`. */
  function ChosenShortlistee(t: Tables, requestId: int, roll: nat): (c: int)
    requires Consistent(t) && Shortlistees(t, requestId) != {}
    ensures c in Shortlistees(t, requestId)
  {
    var l := ShortlisteeList(t, requestId);
    assert l != [] by {
      var c :| c in Shortlistees(t, requestId);
      assert c in l;
    }
    l[roll % |l|]
  }

  /** Every CSR on the shortlist is a possible pick. */
  lemma EveryShortlisteeCanBeChosen(t: Tables, requestId: int, c: int)
    requires Consistent(t) && c in Shortlistees(t, requestId)
    ensures exists roll: nat :: ChosenShortlistee(t, requestId, roll) == c
  {
    var l := ShortlisteeList(t, requestId);
    var i :| 0 <= i < |l| && l[i] == c;
    SmallRemainder(i, |l|);
    assert ChosenShortlistee(t, requestId, i) == c;
  }

  lemma SmallRemainder(i: int, n: int)
    requires 0 <= i < n
    ensures i % n == i
  {
  }

  /** `body.get("status", req.status)`: None when the body holds null. */
  function NewStatus(status: JsonField<string>, current: string): Option<string> {
    match status
    case Missing => Some(current)
    case Null => None
    case Present(s) => Some(s)
  }

  predicate StatusOk(status: JsonField<string>, current: string) {
    var s := NewStatus(status, current);
    s.Some? && IsRequestStatus(s.value)
  }

  /** The assignment guard: an explicit assignee exists, or the shortlist
      offers one. */
  predicate AssigneeOk(t: Tables, requestId: int, assignedTo: Option<int>) {
    if IntTruthy(assignedTo) then assignedTo.value in t.csrs else Shortlistees(t, requestId) != {}
  }

  /** `update_request` as intended, with the CSR identified by `csr_user_id`.
      Any valid status is accepted from any current status, and
      `completed_at` is never written. */
  function UpdateRequest(t: Tables, requestId: int, assignedTo: Option<int>,
                         status: JsonField<string>, roll: nat): (o: Outcome)
    requires Consistent(t)
    ensures Consistent(o.tables)
    ensures o.reply != Ok ==> o.tables == t
    ensures requestId !in t.requests ==> o.reply == Err("Request not found")
    ensures requestId in t.requests && !IntTruthy(assignedTo) && Shortlistees(t, requestId) == {} ==>
              o.reply == Err("No shortlistees available to assign")
    ensures requestId in t.requests && IntTruthy(assignedTo) && assignedTo.value !in t.csrs ==>
              o.reply == Err("CSR not found")
    ensures requestId in t.requests && AssigneeOk(t, requestId, assignedTo)
            && !StatusOk(status, t.requests[requestId].status) ==>
              o.reply == Err("Invalid status value")
    ensures o.reply == Ok <==>
              requestId in t.requests && AssigneeOk(t, requestId, assignedTo)
              && StatusOk(status, t.requests[requestId].status)
    ensures o.reply == Ok ==>
              requestId in t.requests && requestId in o.tables.requests &&
              var r0 := t.requests[requestId];
              var r1 := o.tables.requests[requestId];
              && o.tables == t.(requests := t.requests[requestId := r1])
              && r1 == r0.(assignedTo := r1.assignedTo, status := r1.status)
              && r1.assignedTo.Some?
              && (IntTruthy(assignedTo) ==> r1.assignedTo == assignedTo)
              && (!IntTruthy(assignedTo) ==> r1.assignedTo.value in Shortlistees(t, requestId))
              && r1.status == (if status.Present? then status.value else r0.status)
              && IsRequestStatus(r1.status)
              && r1.completedAt == r0.completedAt
  {
    if requestId !in t.requests then Outcome(Err("Request not found"), t)
    else
      var req := t.requests[requestId];
      if !IntTruthy(assignedTo) && Shortlistees(t, requestId) == {} then
        Outcome(Err("No shortlistees available to assign"), t)
      else if IntTruthy(assignedTo) && assignedTo.value !in t.csrs then
        Outcome(Err("CSR not found"), t)
      else
        var assignee := if IntTruthy(assignedTo) then assignedTo.value
                        else ChosenShortlistee(t, requestId, roll);
        var newStatus := NewStatus(status, req.status);
        if newStatus.None? || !IsRequestStatus(newStatus.value) then
          Outcome(Err("Invalid status value"), t)
        else
          Outcome(Ok, PutRequest(t, requestId, req.(assignedTo := Some(assignee), status := newStatus.value)))
  }

  method ApplyUpdateRequest(db: Db, requestId: int, assignedTo: Option<int>,
                            status: JsonField<string>, roll: nat) returns (r: Reply)
    requires db.Valid()
    modifies db
    ensures Outcome(r, db.State()) == UpdateRequest(old(db.State()), requestId, assignedTo, status, roll)
    ensures db.Valid()
  {
    var t := db.State();
    if requestId !in db.requests {
      return Err("Request not found");
    }
    var req := db.requests[requestId];
    var assignee: int;
    if !IntTruthy(assignedTo) {
      if Shortlistees(db.State(), requestId) == {} {
        return Err("No shortlistees available to assign");
      }
      assignee := ChosenShortlistee(db.State(), requestId, roll);
    } else {
      if assignedTo.value !in db.csrs {
        return Err("CSR not found");
      }
      assignee := assignedTo.value;
    }
    var newStatus := NewStatus(status, req.status);
    if newStatus.None? || !IsRequestStatus(newStatus.value) {
      return Err("Invalid status value");
    }
    req := req.(assignedTo := Some(assignee));
    req := req.(status := newStatus.value);
    db.Store(PutRequest(t, requestId, req));
    r := Ok;
  }

  /** On input where the shortlist offers a CSR and the status is valid, the
      code as written reports a failure, while the intended operation
      assigns the request. */
  lemma UpdateRequestAsWrittenFails()
    ensures var t := Tables(
              map[1 := Request(1, "Groceries", None, Pending, None, 0, 0, None, 0, None)],
              {Pair(1, 1)}, map[],
              map[1 := Account("carol", "pw", "carol@example.com", None, Some(Active), None)],
              map[], map[1 := Csr(1, "Acme")], map[1 := Pin(1)], 2, 1, 2, 1, 2);
            Consistent(t)
            && UpdateRequestAsWritten(t, 1, None, Present(Assigned)) == Fail("Failed to update request: ")
            && UpdateRequest(t, 1, None, Present(Assigned), 0).reply == Ok
  {
    var t := Tables(
      map[1 := Request(1, "Groceries", None, Pending, None, 0, 0, None, 0, None)],
      {Pair(1, 1)}, map[],
      map[1 := Account("carol", "pw", "carol@example.com", None, Some(Active), None)],
      map[], map[1 := Csr(1, "Acme")], map[1 := Pin(1)], 2, 1, 2, 1, 2);
    assert 1 in Shortlistees(t, 1);
  }

  // ---------------------------------------------------------------------
  // get_csr_requests
  // ---------------------------------------------------------------------

  /** One element of the CSR listing. */
  datatype CsrRow = CsrRow(
    id: int,
    pinUserId: int,
    title: string,
    description: Option<string>,
    status: string,
    categoryName: string,
    assignedTo: Option<int>,
    createdAt: int,
    updatedAt: int,
    completedAt: Option<int>,
    myShortlisted: bool,
    shortlisteesCount: nat)

  /** The listing filter: with "shortlisted" and a CSR, the requests that CSR
      shortlisted, whatever their status; with one of the three statuses, the
      requests in it; with anything else, every request. */
  predicate Listed(t: Tables, status: Option<string>, csrId: Option<int>, id: int) {
    id in t.requests &&
    if status == Some("shortlisted") && IntTruthy(csrId) then Pair(csrId.value, id) in t.shortlists
    else if status.Some? && IsRequestStatus(status.value) then t.requests[id].status == status.value
    else true
  }

  /** `ORDER BY created_at DESC`, as an ascending key. */
  function NewestFirst(t: Tables): int -> int {
    k => if k in t.requests then -t.requests[k].createdAt else 0
  }

  function ListedIds(t: Tables, status: Option<string>, csrId: Option<int>): (ids: seq<int>)
    requires Consistent(t)
    ensures forall id :: id in ids <==> Listed(t, status, csrId, id)
    ensures forall i | 0 <= i < |ids| :: ids[i] in t.requests
    ensures forall i, j | 0 <= i < j < |ids| ::
              t.requests[ids[i]].createdAt >= t.requests[ids[j]].createdAt
    ensures Distinct(ids)
  {
    var all := IdsUpTo(t.requests.Keys, t.nextRequestId);
    var chosen := Filter(all, id => Listed(t, status, csrId, id));
    ChosenAreListed(t, status, csrId);
    var ids := SortBy(chosen, NewestFirst(t));
    SortByKeepsElements(chosen, NewestFirst(t));
    SubMultisetKeepsDistinct(all, chosen);
    SubMultisetKeepsDistinct(chosen, ids);
    NewestFirstOrder(t, ids);
    ids
  }

  lemma ChosenAreListed(t: Tables, status: Option<string>, csrId: Option<int>)
    requires Consistent(t)
    ensures forall id :: id in Filter(IdsUpTo(t.requests.Keys, t.nextRequestId),
                                      id => Listed(t, status, csrId, id))
                         <==> Listed(t, status, csrId, id)
  {
  }

  lemma NewestFirstOrder(t: Tables, ids: seq<int>)
    requires forall i | 0 <= i < |ids| :: ids[i] in t.requests
    requires SortedByKey(ids, NewestFirst(t))
    ensures forall i, j | 0 <= i < j < |ids| ::
              t.requests[ids[i]].createdAt >= t.requests[ids[j]].createdAt
  {
    forall i, j | 0 <= i < j < |ids|
      ensures t.requests[ids[i]].createdAt >= t.requests[ids[j]].createdAt
    {
      assert NewestFirst(t)(ids[i]) <= NewestFirst(t)(ids[j]);
    }
  }

  /** `r.category.name if r.category else "Misc"`. */
  function CategoryName(t: Tables, r: Request): string {
    if r.categoryId.Some? && r.categoryId.value in t.categories
    then t.categories[r.categoryId.value].name else "Misc"
  }

  function CsrRowOf(t: Tables, csrId: Option<int>, id: int): CsrRow
    requires id in t.requests
  {
    var r := t.requests[id];
    CsrRow(id, r.pinUserId, r.title, r.description, r.status, CategoryName(t, r),
           r.assignedTo, r.createdAt, r.updatedAt, r.completedAt,
           IntTruthy(csrId) && Pair(csrId.value, id) in t.shortlists,
           |PairsOf(t.shortlists, id)|)
  }

  /** Rows built one per id of `ids`, in that order. */
  ghost predicate RowsOf(t: Tables, csrId: Option<int>, ids: seq<int>, rows: seq<CsrRow>) {
    (forall i | 0 <= i < |ids| :: ids[i] in t.requests) &&
    |rows| == |ids| &&
    forall i | 0 <= i < |rows| :: rows[i] == CsrRowOf(t, csrId, ids[i])
  }

  lemma RowsCoverIds(t: Tables, csrId: Option<int>, ids: seq<int>, rows: seq<CsrRow>)
    requires RowsOf(t, csrId, ids, rows)
    ensures forall i | 0 <= i < |rows| :: rows[i].id == ids[i]
    ensures forall i | 0 <= i < |rows| :: rows[i].id in ids
    ensures forall id | id in ids :: exists i | 0 <= i < |rows| :: rows[i].id == id
  {
    forall i | 0 <= i < |rows| ensures rows[i].id in ids {
      assert rows[i].id == ids[i];
    }
    forall id | id in ids ensures exists i | 0 <= i < |rows| :: rows[i].id == id {
      var i :| 0 <= i < |ids| && ids[i] == id;
      assert rows[i].id == id;
    }
  }

  lemma RowsFlags(t: Tables, csrId: Option<int>, ids: seq<int>, rows: seq<CsrRow>)
    requires RowsOf(t, csrId, ids, rows)
    ensures forall i | 0 <= i < |rows| ::
              rows[i].myShortlisted <==> IntTruthy(csrId) && Pair(csrId.value, rows[i].id) in t.shortlists
    ensures forall i | 0 <= i < |rows| :: rows[i].shortlisteesCount == |Shortlistees(t, rows[i].id)|
  {
    forall i | 0 <= i < |rows| ensures rows[i].shortlisteesCount == |Shortlistees(t, rows[i].id)| {
      PairCountIsCsrCount(t, rows[i].id);
    }
  }

  lemma RowsNewestFirst(t: Tables, csrId: Option<int>, ids: seq<int>, rows: seq<CsrRow>)
    requires RowsOf(t, csrId, ids, rows)
    requires forall i, j | 0 <= i < j < |ids| ::
               t.requests[ids[i]].createdAt >= t.requests[ids[j]].createdAt
    ensures forall i, j | 0 <= i < j < |rows| :: rows[i].createdAt >= rows[j].createdAt
  {
    forall i, j | 0 <= i < j < |rows| ensures rows[i].createdAt >= rows[j].createdAt {
      assert rows[i].createdAt == t.requests[ids[i]].createdAt;
      assert rows[j].createdAt == t.requests[ids[j]].createdAt;
    }
  }

  /** The `for r in rows: result.append({...})` loop of `get_csr_requests`. */
  method BuildCsrRows(db: Db, csrId: Option<int>, ids: seq<int>) returns (rows: seq<CsrRow>)
    requires forall i | 0 <= i < |ids| :: ids[i] in db.requests
    ensures RowsOf(db.State(), csrId, ids, rows)
  {
    ghost var t := db.State();
    rows := [];
    for i := 0 to |ids|
      invariant |rows| == i
      invariant forall j | 0 <= j < i :: rows[j] == CsrRowOf(t, csrId, ids[j])
    {
      var id := ids[i];
      var r := db.requests[id];
      var mine := false;
      if IntTruthy(csrId) {
        mine := Pair(csrId.value, id) in db.shortlists;
      }
      var count := |PairsOf(db.shortlists, id)|;
      var categoryName := "Misc";
      if r.categoryId.Some? && r.categoryId.value in db.categories {
        categoryName := db.categories[r.categoryId.value].name;
      }
      var row := CsrRow(id, r.pinUserId, r.title, r.description, r.status,
                        categoryName, r.assignedTo, r.createdAt, r.updatedAt,
                        r.completedAt, mine, count);
      assert row == CsrRowOf(t, csrId, id);
      ghost var before := rows;
      rows := rows + [row];
      assert forall j | 0 <= j < i :: rows[j] == before[j];
    }
  }

  /** `get_csr_requests`: one row per listed request, newest first, each with
      whether this CSR shortlisted it and how many CSRs did. */
  method ListCsrRequests(db: Db, status: Option<string>, csrId: Option<int>)
    returns (result: seq<CsrRow>)
    requires db.Valid()
    ensures forall i | 0 <= i < |result| :: Listed(db.State(), status, csrId, result[i].id)
    ensures forall id | Listed(db.State(), status, csrId, id) ::
              exists i | 0 <= i < |result| :: result[i].id == id
    ensures forall i | 0 <= i < |result| ::
              result[i].myShortlisted <==>
                IntTruthy(csrId) && Pair(csrId.value, result[i].id) in db.shortlists
    ensures forall i | 0 <= i < |result| ::
              result[i].shortlisteesCount == |Shortlistees(db.State(), result[i].id)|
    ensures forall i, j | 0 <= i < j < |result| :: result[i].createdAt >= result[j].createdAt
    ensures forall i, j | 0 <= i < j < |result| :: result[i].id != result[j].id
    ensures RowsOf(db.State(), csrId, ListedIds(db.State(), status, csrId), result)
  {
    var ids := ListedIds(db.State(), status, csrId);
    result := BuildCsrRows(db, csrId, ids);
    RowsCoverIds(db.State(), csrId, ids, result);
    RowsFlags(db.State(), csrId, ids, result);
    RowsNewestFirst(db.State(), csrId, ids, result);
  }
}
