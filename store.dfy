/** The hosted database as an in-memory store. Each primitive below is one
    awaited call of the query client: an atomic write that either takes effect
    or replies with an error and leaves every table as it was. An
    `update(...).eq('id', id)` that matches no row is not an error: it simply
    changes nothing. */
module Store {
  import opened Types

  /** `parts.update({ current_stock: stock }).eq('id', id)` on a table value. */
  function WithStock(parts: map<Id, Part>, id: Id, stock: int): (r: map<Id, Part>)
    ensures r.Keys == parts.Keys
    ensures id in parts ==> r[id] == parts[id].(currentStock := stock)
    ensures forall k :: k in parts && k != id ==> r[k] == parts[k]
  {
    if id in parts then parts[id := parts[id].(currentStock := stock)] else parts
  }

  /** `stock_requests.update({ status }).eq('id', id)` on a table value. */
  function WithStatus(requests: map<Id, StockRequest>, id: Id, status: RequestStatus): (r: map<Id, StockRequest>)
    ensures r.Keys == requests.Keys
    ensures id in requests ==> r[id] == requests[id].(status := status)
    ensures forall k :: k in requests && k != id ==> r[k] == requests[k]
  {
    if id in requests then requests[id := requests[id].(status := status)] else requests
  }

  /** `users.update({ role }).eq('id', id)` on a table value. */
  function WithRole(users: map<Id, User>, id: Id, role: Role): (r: map<Id, User>)
    ensures r.Keys == users.Keys
    ensures id in users ==> r[id] == users[id].(role := role)
    ensures forall k :: k in users && k != id ==> r[k] == users[k]
  {
    if id in users then users[id := users[id].(role := role)] else users
  }

  /** `users.update({ active }).eq('id', id)` on a table value. */
  function WithActive(users: map<Id, User>, id: Id, active: bool): (r: map<Id, User>)
    ensures r.Keys == users.Keys
    ensures id in users ==> r[id] == users[id].(active := active)
    ensures forall k :: k in users && k != id ==> r[k] == users[k]
  {
    if id in users then users[id := users[id].(active := active)] else users
  }

  /** The shared database client: the four tables, updated in place by the
      components' handlers through the primitives below. */
  class Database {
    var parts: map<Id, Part>
    var stockHistory: seq<StockHistory>
    var stockRequests: map<Id, StockRequest>
    var users: map<Id, User>

    function State(): Tables
      reads this
    {
      Tables(parts, stockHistory, stockRequests, users)
    }

    constructor (t: Tables)
      ensures State() == t
    {
      parts, stockHistory, stockRequests, users := t.parts, t.stockHistory, t.stockRequests, t.users;
    }

    method UpdatePartStock(id: Id, stock: int, reply: Reply) returns (r: Reply)
      modifies this
      ensures r == reply
      ensures State() == if reply.Ok? then old(State()).(parts := WithStock(old(parts), id, stock)) else old(State())
    {
      if reply.Ok? {
        parts := WithStock(parts, id, stock);
      }
      r := reply;
    }

    method UpdateRequestStatus(id: Id, status: RequestStatus, reply: Reply) returns (r: Reply)
      modifies this
      ensures r == reply
      ensures State() == if reply.Ok? then old(State()).(stockRequests := WithStatus(old(stockRequests), id, status)) else old(State())
    {
      if reply.Ok? {
        stockRequests := WithStatus(stockRequests, id, status);
      }
      r := reply;
    }

    method InsertHistory(row: StockHistory, reply: Reply) returns (r: Reply)
      modifies this
      ensures r == reply
      ensures State() == if reply.Ok? then old(State()).(stockHistory := old(stockHistory) + [row]) else old(State())
    {
      if reply.Ok? {
        stockHistory := stockHistory + [row];
      }
      r := reply;
    }

    /** The row's key is generated by the database, so it is new. */
    method InsertRequest(row: StockRequest, reply: Reply) returns (r: Reply)
      requires row.id !in stockRequests
      modifies this
      ensures r == reply
      ensures State() == if reply.Ok? then old(State()).(stockRequests := old(stockRequests)[row.id := row]) else old(State())
    {
      if reply.Ok? {
        stockRequests := stockRequests[row.id := row];
      }
      r := reply;
    }

    method UpdateUserRole(id: Id, role: Role, reply: Reply) returns (r: Reply)
      modifies this
      ensures r == reply
      ensures State() == if reply.Ok? then old(State()).(users := WithRole(old(users), id, role)) else old(State())
    {
      if reply.Ok? {
        users := WithRole(users, id, role);
      }
      r := reply;
    }

    method UpdateUserActive(id: Id, active: bool, reply: Reply) returns (r: Reply)
      modifies this
      ensures r == reply
      ensures State() == if reply.Ok? then old(State()).(users := WithActive(old(users), id, active)) else old(State())
    {
      if reply.Ok? {
        users := WithActive(users, id, active);
      }
      r := reply;
    }
  }
}
