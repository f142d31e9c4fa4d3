/** The rows of the four tables the stock workflow touches, and the shape of
    one call to the hosted database. Identifiers are the database's text keys. */
module Types {

  type Id = string

  datatype Option<T> = None | Some(value: T)

  /** What one awaited database call returned: it took effect, or it came back
      with an error and changed nothing. The database is not modelled, so the
      reply of every call is an input of the operation that makes it. */
  datatype Reply = Ok | Error

  /** `users.role`: 'admin' | 'user'. */
  datatype Role = Admin | Member

  function RoleName(r: Role): (s: string)
    ensures s == "admin" <==> r == Admin
  {
    match r
    case Admin => "admin"
    case Member => "user"
  }

  /** `stock_requests.status`: 'pending' | 'approved' | 'rejected'. */
  datatype RequestStatus = Pending | Approved | Rejected

  /** `stock_requests.request_type`: 'USAGE' | 'PURCHASE'. */
  datatype RequestType = Usage | Purchase

  /** `stock_history.type`: 'INCREASE' | 'DECREASE'. */
  datatype HistoryType = INCREASE | DECREASE

  function HistoryTypeName(h: HistoryType): (s: string)
    ensures s == "INCREASE" || s == "DECREASE"
    ensures s == "INCREASE" <==> h.INCREASE?
  {
    match h
    case INCREASE => "INCREASE"
    case DECREASE => "DECREASE"
  }

  datatype Part = Part(
    id: Id,
    code: string,
    name: string,
    category: string,
    location: string,
    currentStock: int,
    minimumStock: int)

  datatype StockRequest = StockRequest(
    id: Id,
    partId: Id,
    requesterId: Id,
    quantity: int,
    status: RequestStatus,
    requestType: RequestType)

  datatype User = User(
    id: Id,
    email: string,
    name: string,
    role: Role,
    active: bool)

  /** One `stock_history` row. `quantity` is the signed change; `createdBy`
      is absent when no user was signed in at insert time. */
  datatype StockHistory = StockHistory(
    id: Id,
    partId: Id,
    quantity: int,
    kind: HistoryType,
    createdBy: Option<Id>)

  /** The whole database as the workflow sees it: `parts`, `stock_history`
      (append-only, in insertion order), `stock_requests` and `users`. */
  datatype Tables = Tables(
    parts: map<Id, Part>,
    stockHistory: seq<StockHistory>,
    stockRequests: map<Id, StockRequest>,
    users: map<Id, User>)

  /** The tables after an operation, and what the operation reported. */
  datatype Step<O> = Step(tables: Tables, outcome: O)
}
