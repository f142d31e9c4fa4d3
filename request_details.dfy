/** `RequestDetailsModal.handleAction`: an administrator approves or rejects a
    pending request. The request's status is written first; on approval only,
    the part's stock is then overwritten with a value computed from the stock
    the modal was opened with. Nothing is rolled back and nothing is logged in
    `stock_history`. */
module RequestDetails {
  import opened Types
  import opened Store

  /** The `parts` join carried by the modal's `request` prop. */
  datatype PartSummary = PartSummary(code: string, name: string, currentStock: int)

  /** The modal's `request` prop: the row as the list fetched it, with its
      part and requester. */
  datatype RequestView = RequestView(request: StockRequest, part: PartSummary, requesterName: string)

  /** `action: 'approved' | 'rejected'`. */
  datatype Decision = Approve | Reject

  function DecisionStatus(d: Decision): (s: RequestStatus)
    ensures s != Pending
    ensures s.Approved? <==> d.Approve?
  {
    match d
    case Approve => Approved
    case Reject => Rejected
  }

  datatype ResolveOutcome =
    | Resolved           // onSuccess() and onClose()
    | StatusWriteFailed  // the status update replied with an error
    | StockWriteFailed   // the status was written, the stock update replied with an error

  /** The buttons are rendered only for an administrator looking at a
      request whose fetched status is pending. */
  function ActionsOffered(userRole: string, view: RequestView): (b: bool)
    ensures b <==> userRole == RoleName(Admin) && !view.request.status.Approved? && !view.request.status.Rejected?
  {
    userRole == "admin" && view.request.status.Pending?
  }

  /** `newStock`: PURCHASE adds the quantity, USAGE subtracts it, both from the
      snapshot's stock. */
  function ApprovedStock(view: RequestView): (r: int)
    ensures view.request.requestType.Purchase? ==> r == view.part.currentStock + view.request.quantity
    ensures view.request.requestType.Usage? ==> r == view.part.currentStock - view.request.quantity
    ensures view.request.quantity >= 0 ==> (r >= view.part.currentStock <==> view.request.requestType.Purchase? || view.request.quantity == 0)
  {
    if view.request.requestType.Purchase? then
      view.part.currentStock + view.request.quantity
    else
      view.part.currentStock - view.request.quantity
  }

  /** The effect of one `handleAction(decision)` on the tables, given the
      replies of the status update and of the stock update. */
  function Resolve(t: Tables, view: RequestView, decision: Decision,
                   statusReply: Reply, stockReply: Reply): (s: Step<ResolveOutcome>)
    // a failed status write stops everything: no table changes
    ensures statusReply.Error? ==> s.tables == t && s.outcome == StatusWriteFailed
    // otherwise the request `view.request.id`, and only it, gets the decided status
    ensures statusReply.Ok? ==> s.tables.stockRequests == WithStatus(t.stockRequests, view.request.id, DecisionStatus(decision))
    // stock changes only on an approval whose two writes both went through, and only for `partId`
    ensures decision.Reject? || statusReply.Error? || stockReply.Error? ==> s.tables.parts == t.parts
    ensures decision.Approve? && statusReply.Ok? && stockReply.Ok? ==>
      s.tables.parts == WithStock(t.parts, view.request.partId, ApprovedStock(view))
    // the written status stays even when the stock write then fails: no rollback
    ensures statusReply.Ok? && view.request.id in t.stockRequests ==>
      s.tables.stockRequests[view.request.id].status == DecisionStatus(decision)
    ensures decision.Approve? && statusReply.Ok? && stockReply.Error? ==> s.outcome == StockWriteFailed
    // the stored stock is overwritten from the snapshot, whatever the table held
    ensures decision.Approve? && statusReply.Ok? && stockReply.Ok? && view.request.partId in t.parts ==>
      s.tables.parts[view.request.partId].currentStock == ApprovedStock(view)
    ensures s.outcome == Resolved <==> statusReply.Ok? && (decision.Reject? || stockReply.Ok?)
    // approval writes no history row, and users are never touched
    ensures s.tables.stockHistory == t.stockHistory && s.tables.users == t.users
  {
    if statusReply.Error? then
      Step(t, StatusWriteFailed)
    else
      var t1 := t.(stockRequests := WithStatus(t.stockRequests, view.request.id, DecisionStatus(decision)));
      if decision.Reject? then
        Step(t1, Resolved)
      else if stockReply.Error? then
        Step(t1, StockWriteFailed)
      else
        Step(t1.(parts := WithStock(t1.parts, view.request.partId, ApprovedStock(view))), Resolved)
  }

  /** `handleAction`, reachable only through the buttons, hence only when they
      are offered. */
  method HandleAction(db: Database, userRole: string, view: RequestView, decision: Decision,
                      statusReply: Reply, stockReply: Reply) returns (o: ResolveOutcome)
    requires ActionsOffered(userRole, view)
    modifies db
    ensures db.State() == Resolve(old(db.State()), view, decision, statusReply, stockReply).tables
    ensures o == Resolve(old(db.State()), view, decision, statusReply, stockReply).outcome
  {
    var error := db.UpdateRequestStatus(view.request.id, DecisionStatus(decision), statusReply);
    if error.Error? {
      return StatusWriteFailed;
    }
    if decision.Approve? {
      var newStock := ApprovedStock(view);
      var stockError := db.UpdatePartStock(view.request.partId, newStock, stockReply);
      if stockError.Error? {
        return StockWriteFailed;
      }
    }
    o := Resolved;
  }

  /** Non-negative stock is not an invariant of approval: a USAGE request for
      more than the snapshot's stock is applied as it is. */
  lemma UsageApprovalCanGoNegative(t: Tables, view: RequestView)
    requires view.request.partId in t.parts
    requires view.request.requestType.Usage? && view.request.quantity == 3 && view.part.currentStock == 2
    ensures var s := Resolve(t, view, Approve, Ok, Ok);
            s.outcome == Resolved && s.tables.parts[view.request.partId].currentStock == -1
  {
  }

  /** Two approvals for one part: the second write replaces the first, whose
      stock change is lost. The final stock is the second view's value alone,
      never that value plus the first approval's change. */
  lemma LaterApprovalOverwritesEarlier(t: Tables, first: RequestView, second: RequestView)
    requires first.request.partId == second.request.partId && first.request.partId in t.parts
    ensures var t1 := Resolve(t, first, Approve, Ok, Ok).tables;
            var t2 := Resolve(t1, second, Approve, Ok, Ok).tables;
            t2.parts[second.request.partId].currentStock == ApprovedStock(second)
    ensures var t1 := Resolve(t, first, Approve, Ok, Ok).tables;
            var t2 := Resolve(t1, second, Approve, Ok, Ok).tables;
            first.request.quantity != 0 ==>
              t2.parts[second.request.partId].currentStock
                != ApprovedStock(second) + (ApprovedStock(first) - first.part.currentStock)
  {
  }

  /** A second approval from the same (now stale) view is still offered and
      leaves the tables exactly as the first one did: the status and the
      stock are overwritten with the same values. */
  lemma ReapprovalChangesNothing(t: Tables, view: RequestView)
    ensures var t1 := Resolve(t, view, Approve, Ok, Ok).tables;
            Resolve(t1, view, Approve, Ok, Ok).tables == t1
  {
  }

  /** The pending gate is checked on the fetched view, not on the stored row,
      so a stale view can reject an approved request; its stock change stays. */
  lemma StaleViewReversesApproval(t: Tables, view: RequestView)
    requires view.request.id in t.stockRequests && view.request.partId in t.parts
    ensures var t1 := Resolve(t, view, Approve, Ok, Ok).tables;
            var t2 := Resolve(t1, view, Reject, Ok, Ok).tables;
            && t1.stockRequests[view.request.id].status == Approved
            && t2.stockRequests[view.request.id].status == Rejected
            && t2.parts[view.request.partId].currentStock == ApprovedStock(view)
  {
  }
}
