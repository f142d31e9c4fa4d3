/** `CreateRequestModal.handleSubmit`: a signed-in user raises a USAGE or
    PURCHASE request; one `pending` row is inserted into `stock_requests`. */
module CreateRequest {
  import opened Types
  import opened Store
  import opened RequestDetails

  /** The modal's `formData` state. */
  datatype RequestForm = RequestForm(partId: Id, quantity: int, requestType: RequestType)

  /** `useState({ part_id: '', quantity: 1, request_type: 'USAGE' })`. */
  const DefaultRequestForm := RequestForm("", 1, Usage)

  /** The browser's constraint validation lets the form submit only when the
      `required` part select holds a real part (its placeholder option has the
      value '') and the `required`, `min="1"` quantity input holds a whole
      number of at least 1. */
  function Submittable(form: RequestForm): (b: bool)
    ensures b ==> form.partId != DefaultRequestForm.partId
    ensures b <==> |form.partId| > 0 && form.quantity > 0
  {
    form.partId != "" && form.quantity >= 1
  }

  datatype CreateOutcome =
    | Created       // onSuccess() and onClose()
    | InsertFailed  // the insert replied with an error

  /** The row `handleSubmit` inserts: the form's fields, the requester, and
      the status 'pending'. */
  function NewRequestRow(form: RequestForm, userId: Id, rowId: Id): (row: StockRequest)
    ensures row.id == rowId && row.requesterId == userId && row.status.Pending?
    ensures row.partId == form.partId && row.quantity == form.quantity && row.requestType == form.requestType
  {
    StockRequest(rowId, form.partId, userId, form.quantity, Pending, form.requestType)
  }

  /** The effect of one submit on the tables. `userId` is the modal's prop,
      `rowId` the key the database generates for the new row. */
  function Submit(t: Tables, form: RequestForm, userId: Id, rowId: Id, reply: Reply): (s: Step<CreateOutcome>)
    requires rowId !in t.stockRequests
    ensures s.outcome == Created <==> reply.Ok?
    ensures reply.Error? ==> s.tables == t
    // a successful insert adds exactly one row and leaves every other row alone
    ensures reply.Ok? ==> s.tables.stockRequests.Keys == t.stockRequests.Keys + {rowId}
    ensures reply.Ok? ==> |s.tables.stockRequests| == |t.stockRequests| + 1
    ensures forall k :: k in t.stockRequests ==> k in s.tables.stockRequests && s.tables.stockRequests[k] == t.stockRequests[k]
    // the new row is pending, belongs to the requester and copies the form
    ensures reply.Ok? ==>
      var row := s.tables.stockRequests[rowId];
      && row.id == rowId && row.status == Pending && row.requesterId == userId
      && row.partId == form.partId && row.quantity == form.quantity && row.requestType == form.requestType
    ensures s.tables.parts == t.parts && s.tables.stockHistory == t.stockHistory && s.tables.users == t.users
  {
    if reply.Ok? then
      Step(t.(stockRequests := t.stockRequests[rowId := NewRequestRow(form, userId, rowId)]), Created)
    else
      Step(t, InsertFailed)
  }

  /** `handleSubmit`, reached only through the form's submit. */
  method HandleSubmit(db: Database, form: RequestForm, userId: Id, rowId: Id, reply: Reply) returns (o: CreateOutcome)
    requires Submittable(form)
    requires rowId !in db.stockRequests
    modifies db
    ensures db.State() == Submit(old(db.State()), form, userId, rowId, reply).tables
    ensures o == Submit(old(db.State()), form, userId, rowId, reply).outcome
  {
    var error := db.InsertRequest(NewRequestRow(form, userId, rowId), reply);
    if error.Error? {
      return InsertFailed;
    }
    o := Created;
  }

  /** The default form cannot be submitted until a part is picked; then it
      can, as a USAGE request for one unit. */
  lemma DefaultFormNeedsAPart(partId: Id)
    ensures !Submittable(DefaultRequestForm)
    ensures partId != "" ==> Submittable(DefaultRequestForm.(partId := partId))
    ensures DefaultRequestForm.quantity == 1 && DefaultRequestForm.requestType.Usage?
  {
  }

  /** Every stored request names a part and asks for at least one unit. */
  ghost predicate RequestsWellFormed(t: Tables)
  {
    forall k :: k in t.stockRequests ==> t.stockRequests[k].partId != "" && t.stockRequests[k].quantity >= 1
  }

  /** Submitting from a valid form and resolving a request both keep the
      requests table well formed: resolution writes only the status. */
  lemma RequestsStayWellFormed(t: Tables, form: RequestForm, userId: Id, rowId: Id, reply: Reply,
                               view: RequestView, decision: Decision, statusReply: Reply, stockReply: Reply)
    requires RequestsWellFormed(t) && Submittable(form) && rowId !in t.stockRequests
    ensures RequestsWellFormed(Submit(t, form, userId, rowId, reply).tables)
    ensures RequestsWellFormed(Resolve(t, view, decision, statusReply, stockReply).tables)
  {
  }
}
