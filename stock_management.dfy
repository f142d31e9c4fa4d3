/** `StockAdjustmentModal.handleSubmit`: a user sets a part's stock to the
    snapshot's stock plus or minus a quantity, then logs the change in
    `stock_history`. The modal checks no role. The parts update comes first; the history insert's reply
    is never looked at. */
module StockManagement {
  import opened Types
  import opened Store

  /** The modal's `type` state: 'increase' | 'decrease'. */
  datatype AdjustKind = Increase | Decrease

  /** The text the modal holds for each kind. */
  function KindName(k: AdjustKind): (s: string)
    ensures s == "increase" || s == "decrease"
    ensures s == "increase" <==> k.Increase?
  {
    match k
    case Increase => "increase"
    case Decrease => "decrease"
  }

  /** The modal's form state. The modal renders no inputs (its UI is a
      placeholder), so as written the only state a submit could see is
      `InitialForm`; the model takes the state as an unconstrained input, so
      that it also covers any UI that sets it. */
  datatype AdjustForm = AdjustForm(quantity: int, kind: AdjustKind)

  /** `useState(0)` and `useState('increase')`. */
  const InitialForm := AdjustForm(0, Increase)

  datatype AdjustOutcome =
    | Adjusted          // onSuccess() and onClose()
    | PartsWriteFailed  // alert('stock_adjustment_failed')

  /** `String.prototype.toUpperCase` on one character, for ASCII letters. */
  function UpperChar(c: char): (u: char)
    ensures 'a' <= c <= 'z' ==> u as int == c as int - 32
    ensures !('a' <= c <= 'z') ==> u == c
  {
    if 'a' <= c <= 'z' then (c as int - 32) as char else c
  }

  function Upper(s: string): (r: string)
    ensures |r| == |s|
    ensures forall i :: 0 <= i < |s| ==> r[i] == UpperChar(s[i])
  {
    if s == [] then [] else [UpperChar(s[0])] + Upper(s[1..])
  }

  /** `type.toUpperCase()` as the `stock_history.type` column. */
  function HistoryTag(k: AdjustKind): (h: HistoryType)
    ensures HistoryTypeName(h) == Upper(KindName(k))
  {
    var name := KindName(k);
    var upper := HistoryTypeName(if k == Increase then INCREASE else DECREASE);
    assert |Upper(name)| == |upper|;
    assert forall i :: 0 <= i < |name| ==> Upper(name)[i] == upper[i];
    if k == Increase then INCREASE else DECREASE
  }

  /** The logged quantity: `type === 'increase' ? quantity : -quantity`. */
  function SignedQuantity(form: AdjustForm): (d: int)
    ensures d == form.quantity || d == -form.quantity
    ensures form.quantity > 0 ==> (d > 0 <==> form.kind.Increase?) && (d < 0 <==> form.kind.Decrease?)
    ensures form.quantity > 0 ==> (d > 0 <==> HistoryTag(form.kind).INCREASE?)
  {
    if form.kind == Increase then form.quantity else -form.quantity
  }

  /** `newStock`, computed from the stock the modal was opened with. */
  function NewStock(current: int, form: AdjustForm): (r: int)
    ensures r - current == SignedQuantity(form)
    ensures form.quantity >= 0 ==> (form.kind.Increase? ==> r >= current) && (form.kind.Decrease? ==> r <= current)
  {
    if form.kind == Increase then current + form.quantity else current - form.quantity
  }

  /** The `stock_history` row a submit inserts. */
  function HistoryRow(part: Part, form: AdjustForm, actor: Option<Id>, rowId: Id): (row: StockHistory)
    ensures row.id == rowId && row.partId == part.id && row.createdBy == actor
    // the logged delta is the change the parts update makes to the snapshot
    ensures row.quantity == NewStock(part.currentStock, form) - part.currentStock
    ensures HistoryTypeName(row.kind) == Upper(KindName(form.kind))
  {
    StockHistory(rowId, part.id, SignedQuantity(form), HistoryTag(form.kind), actor)
  }

  /** The effect of one submit on the tables. `part` is the row the modal was
      opened with, `actor` what `auth.getUser()` gave, `rowId` the key the
      database assigns to the history row, and the replies those of the parts
      update and of the history insert. */
  function Adjust(t: Tables, part: Part, form: AdjustForm, actor: Option<Id>, rowId: Id,
                  partsReply: Reply, historyReply: Reply): (s: Step<AdjustOutcome>)
    // success is reported exactly when the parts update went through
    ensures s.outcome == Adjusted <==> partsReply.Ok?
    // a failed parts update stops before the history insert
    ensures partsReply.Error? ==> s.tables == t
    // exactly the part `part.id` changes, to the snapshot's stock plus the signed quantity
    ensures partsReply.Ok? ==> s.tables.parts == WithStock(t.parts, part.id, part.currentStock + SignedQuantity(form))
    // the history log only grows, by at most one row, and only when both writes went through
    ensures t.stockHistory <= s.tables.stockHistory
    ensures |s.tables.stockHistory| == if partsReply.Ok? && historyReply.Ok? then |t.stockHistory| + 1 else |t.stockHistory|
    // the new row records the part, the signed change, its tag and the actor
    ensures |s.tables.stockHistory| > |t.stockHistory| ==>
      var row := s.tables.stockHistory[|t.stockHistory|];
      && row.id == rowId && row.partId == part.id && row.createdBy == actor
      && row.quantity == SignedQuantity(form) && row.kind == HistoryTag(form.kind)
    // when the row is written for an existing part, it is the stock change relative to the snapshot
    ensures partsReply.Ok? && historyReply.Ok? && part.id in t.parts ==>
      s.tables.parts[part.id].currentStock - part.currentStock == s.tables.stockHistory[|t.stockHistory|].quantity
    ensures s.tables.stockRequests == t.stockRequests && s.tables.users == t.users
  {
    if partsReply.Error? then
      Step(t, PartsWriteFailed)
    else
      var parts := WithStock(t.parts, part.id, NewStock(part.currentStock, form));
      var history := if historyReply.Ok? then t.stockHistory + [HistoryRow(part, form, actor, rowId)] else t.stockHistory;
      Step(t.(parts := parts, stockHistory := history), Adjusted)
  }

  /** `handleSubmit`: the parts update, an early exit on its error, then the
      history insert whose reply is dropped. */
  method HandleSubmit(db: Database, part: Part, form: AdjustForm, actor: Option<Id>, rowId: Id,
                      partsReply: Reply, historyReply: Reply) returns (o: AdjustOutcome)
    modifies db
    ensures db.State() == Adjust(old(db.State()), part, form, actor, rowId, partsReply, historyReply).tables
    ensures o == Adjust(old(db.State()), part, form, actor, rowId, partsReply, historyReply).outcome
  {
    var newStock := NewStock(part.currentStock, form);
    var error := db.UpdatePartStock(part.id, newStock, partsReply);
    if error.Error? {
      return PartsWriteFailed;
    }
    var ignored := db.InsertHistory(HistoryRow(part, form, actor, rowId), historyReply);
    o := Adjusted;
  }

  /** A decrease larger than the stock is applied as it is: nothing keeps
      stock from going negative. */
  lemma DecreaseCanGoNegative(t: Tables, part: Part, actor: Option<Id>, rowId: Id)
    requires part.id in t.parts && part.currentStock == 10
    ensures var s := Adjust(t, part, AdjustForm(15, Decrease), actor, rowId, Ok, Ok);
            s.outcome == Adjusted && s.tables.parts[part.id].currentStock == -5
  {
  }

  /** For a negative quantity the INCREASE tag disagrees with the sign of the
      logged delta. No current UI produces a negative quantity (the modal
      renders no inputs); this is what the handler does with one. */
  lemma NegativeIncreaseMislabelled(t: Tables, part: Part, actor: Option<Id>, rowId: Id)
    ensures var s := Adjust(t, part, AdjustForm(-3, Increase), actor, rowId, Ok, Ok);
            var row := s.tables.stockHistory[|t.stockHistory|];
            row.kind == INCREASE && row.quantity < 0
  {
  }

  /** The only state the modal's own UI can submit: a zero-unit INCREASE,
      which leaves the stock where the snapshot had it and logs a zero row. */
  lemma InitialFormAdjustsNothing(t: Tables, part: Part, actor: Option<Id>, rowId: Id)
    requires part.id in t.parts
    ensures var s := Adjust(t, part, InitialForm, actor, rowId, Ok, Ok);
            && s.outcome == Adjusted
            && s.tables.parts[part.id].currentStock == part.currentStock
            && s.tables.stockHistory == t.stockHistory + [StockHistory(rowId, part.id, 0, INCREASE, actor)]
  {
  }
}
