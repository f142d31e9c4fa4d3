/** `stock_history` read as a ledger for `parts.current_stock`: does the sum of
    the logged deltas for a part account for its stock? The workflow itself
    never checks this; the lemmas below say when its operations keep it and
    when they break it. */
module Ledger {
  import opened Types
  import opened Store
  import opened StockManagement
  import opened RequestDetails

  function Contribution(row: StockHistory, pid: Id): int
  {
    if row.partId == pid then row.quantity else 0
  }

  /** The sum of the deltas logged for `pid`, oldest row first. */
  function NetDelta(h: seq<StockHistory>, pid: Id): int
  {
    if h == [] then 0 else Contribution(h[0], pid) + NetDelta(h[1..], pid)
  }

  lemma {:induction false} NetDeltaAppend(h: seq<StockHistory>, row: StockHistory, pid: Id)
    ensures NetDelta(h + [row], pid) == NetDelta(h, pid) + Contribution(row, pid)
  {
    if h == [] {
      assert [] + [row] == [row];
    } else {
      assert (h + [row])[1..] == h[1..] + [row];
      NetDeltaAppend(h[1..], row, pid);
    }
  }

  /** Every part's stored stock is its opening stock plus the deltas logged
      for it. */
  ghost predicate Reconciles(t: Tables, opening: map<Id, int>)
  {
    forall pid :: pid in t.parts ==>
      pid in opening && t.parts[pid].currentStock == opening[pid] + NetDelta(t.stockHistory, pid)
  }

  /** The row the modal was opened with still holds the stored stock. The
      source does not check this: it never re-reads the part. */
  ghost predicate SnapshotCurrent(t: Tables, part: Part)
  {
    part.id in t.parts ==> t.parts[part.id].currentStock == part.currentStock
  }

  /** An adjustment from a current snapshot whose two writes both go through
      keeps the ledger reconciled. */
  lemma AdjustKeepsLedger(t: Tables, opening: map<Id, int>, part: Part, form: AdjustForm,
                                             actor: Option<Id>, rowId: Id)
    requires Reconciles(t, opening) && SnapshotCurrent(t, part)
    ensures Reconciles(Adjust(t, part, form, actor, rowId, Ok, Ok).tables, opening)
  {
    var t' := Adjust(t, part, form, actor, rowId, Ok, Ok).tables;
    var row := HistoryRow(part, form, actor, rowId);
    assert t'.stockHistory == t.stockHistory + [row];
    forall pid | pid in t'.parts
      ensures pid in opening && t'.parts[pid].currentStock == opening[pid] + NetDelta(t'.stockHistory, pid)
    {
      NetDeltaAppend(t.stockHistory, row, pid);
    }
  }

  /** When the history insert fails after the parts update, the stock moves
      and the log does not: the ledger no longer reconciles. */
  lemma LostHistoryRowBreaksLedger(t: Tables, opening: map<Id, int>, part: Part, form: AdjustForm,
                                   actor: Option<Id>, rowId: Id)
    requires Reconciles(t, opening) && SnapshotCurrent(t, part)
    requires part.id in t.parts && form.quantity != 0
    ensures !Reconciles(Adjust(t, part, form, actor, rowId, Ok, Error).tables, opening)
  {
  }

  /** An adjustment from a snapshot that no longer holds the stored stock logs
      the intended delta but overwrites the stock from the old value. */
  lemma StaleSnapshotBreaksLedger(t: Tables, opening: map<Id, int>, part: Part, form: AdjustForm,
                                                     actor: Option<Id>, rowId: Id)
    requires Reconciles(t, opening)
    requires part.id in t.parts && t.parts[part.id].currentStock != part.currentStock
    ensures !Reconciles(Adjust(t, part, form, actor, rowId, Ok, Ok).tables, opening)
  {
    var t' := Adjust(t, part, form, actor, rowId, Ok, Ok).tables;
    NetDeltaAppend(t.stockHistory, HistoryRow(part, form, actor, rowId), part.id);
    assert t'.parts[part.id].currentStock != opening[part.id] + NetDelta(t'.stockHistory, part.id);
  }

  /** Approving a request changes stock and writes no history row, so even a
      correct approval leaves the ledger out of balance. */
  lemma ApprovalBreaksLedger(t: Tables, opening: map<Id, int>, view: RequestView)
    requires Reconciles(t, opening)
    requires view.request.partId in t.parts
    requires t.parts[view.request.partId].currentStock == view.part.currentStock
    requires view.request.quantity != 0
    ensures !Reconciles(Resolve(t, view, Approve, Ok, Ok).tables, opening)
  {
  }

  /** A resolution that writes no stock (a rejection, or a failed write)
      leaves the ledger as it was. */
  lemma ResolutionWithoutStockWriteKeepsLedger(t: Tables, opening: map<Id, int>, view: RequestView,
                                               decision: Decision, statusReply: Reply, stockReply: Reply)
    requires Reconciles(t, opening)
    requires decision.Reject? || statusReply.Error? || stockReply.Error?
    ensures Reconciles(Resolve(t, view, decision, statusReply, stockReply).tables, opening)
  {
  }

  /** One submit of the adjustment modal. */
  datatype Adjustment = Adjustment(partId: Id, form: AdjustForm, actor: Option<Id>, rowId: Id)

  /** A run of adjustments, each made from a modal opened on the part's
      current row, whose writes all go through. An adjustment for a part that
      is not in the table has no modal to come from and is skipped. */
  function RunFresh(t: Tables, ops: seq<Adjustment>): (r: Tables)
    ensures r.parts.Keys == t.parts.Keys
    ensures t.stockHistory <= r.stockHistory
    decreases |ops|
  {
    if ops == [] then t
    else
      var op := ops[0];
      var t1 := if op.partId in t.parts
                then Adjust(t, t.parts[op.partId], op.form, op.actor, op.rowId, Ok, Ok).tables
                else t;
      RunFresh(t1, ops[1..])
  }

  /** Each part row is stored under its own `id`. */
  ghost predicate KeyedById(t: Tables)
  {
    forall k :: k in t.parts ==> t.parts[k].id == k
  }

  lemma {:induction false} RunFreshKeepsLedger(t: Tables, opening: map<Id, int>, ops: seq<Adjustment>)
    requires Reconciles(t, opening) && KeyedById(t)
    ensures Reconciles(RunFresh(t, ops), opening)
    decreases |ops|
  {
    if ops != [] {
      var op := ops[0];
      if op.partId in t.parts {
        var part := t.parts[op.partId];
        AdjustKeepsLedger(t, opening, part, op.form, op.actor, op.rowId);
        var t1 := Adjust(t, part, op.form, op.actor, op.rowId, Ok, Ok).tables;
        assert KeyedById(t1);
        RunFreshKeepsLedger(t1, opening, ops[1..]);
      } else {
        RunFreshKeepsLedger(t, opening, ops[1..]);
      }
    }
  }

  /** For a run of up-to-date adjustments, each part's net stock change is
      exactly the sum of the deltas the run logged for it. */
  lemma RunFreshNetChangeIsLogged(t: Tables, ops: seq<Adjustment>, pid: Id)
    requires KeyedById(t) && pid in t.parts
    ensures pid in RunFresh(t, ops).parts
    ensures RunFresh(t, ops).parts[pid].currentStock - t.parts[pid].currentStock
            == NetDelta(RunFresh(t, ops).stockHistory, pid) - NetDelta(t.stockHistory, pid)
  {
    var opening := map p | p in t.parts :: t.parts[p].currentStock - NetDelta(t.stockHistory, p);
    assert Reconciles(t, opening);
    RunFreshKeepsLedger(t, opening, ops);
  }
}
