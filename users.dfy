/** `UserManagement`: an administrator changes one user's role or active flag.
    Each handler first checks the component's `currentUserRole`, which starts
    as '' and is filled in from the signed-in user's row. */
module Users {
  import opened Types
  import opened Store

  datatype ChangeOutcome =
    | Refused       // alert('only_admin_can_…'), no call made
    | Updated       // the update went through; the list is fetched again
    | UpdateFailed  // the update replied with an error

  /** `handleRoleChange(userId, newRole)` with `actingRole` as the component's
      `currentUserRole`. */
  function ChangeRole(t: Tables, actingRole: string, userId: Id, newRole: Role, reply: Reply): (s: Step<ChangeOutcome>)
    ensures s.outcome.Refused? <==> actingRole != "admin"
    ensures actingRole != "admin" || reply.Error? ==> s.tables == t
    ensures s.outcome.Updated? <==> actingRole == "admin" && reply.Ok?
    // only `role` of only `userId` changes
    ensures s.outcome.Updated? ==> s.tables.users == WithRole(t.users, userId, newRole)
    ensures s.outcome.Updated? && userId in t.users ==> s.tables.users[userId].role == newRole
    ensures s.tables.parts == t.parts && s.tables.stockHistory == t.stockHistory && s.tables.stockRequests == t.stockRequests
  {
    if actingRole != "admin" then Step(t, Refused)
    else if reply.Error? then Step(t, UpdateFailed)
    else Step(t.(users := WithRole(t.users, userId, newRole)), Updated)
  }

  /** `handleStatusChange(userId, newStatus)` with `actingRole` as the
      component's `currentUserRole`. */
  function ChangeStatus(t: Tables, actingRole: string, userId: Id, active: bool, reply: Reply): (s: Step<ChangeOutcome>)
    ensures s.outcome.Refused? <==> actingRole != "admin"
    ensures actingRole != "admin" || reply.Error? ==> s.tables == t
    ensures s.outcome.Updated? <==> actingRole == "admin" && reply.Ok?
    // only `active` of only `userId` changes
    ensures s.outcome.Updated? ==> s.tables.users == WithActive(t.users, userId, active)
    ensures s.outcome.Updated? && userId in t.users ==> s.tables.users[userId].active == active
    ensures s.tables.parts == t.parts && s.tables.stockHistory == t.stockHistory && s.tables.stockRequests == t.stockRequests
  {
    if actingRole != "admin" then Step(t, Refused)
    else if reply.Error? then Step(t, UpdateFailed)
    else Step(t.(users := WithActive(t.users, userId, active)), Updated)
  }

  /** The component's state that the handlers read. */
  class UserManagement {
    var currentUserRole: string

    /** `useState<string>('')`: no role until the lookup comes back. */
    constructor ()
      ensures currentUserRole == ""
    {
      currentUserRole := "";
    }

    /** `getCurrentUserRole`: `row` is the `role` of the signed-in user's row,
        None when there is no user or no row; only a row changes the state. */
    method GetCurrentUserRole(row: Option<Role>)
      modifies this
      ensures currentUserRole == if row.Some? then RoleName(row.value) else old(currentUserRole)
    {
      if row.Some? {
        currentUserRole := RoleName(row.value);
      }
    }

    method HandleRoleChange(db: Database, userId: Id, newRole: Role, reply: Reply) returns (o: ChangeOutcome)
      modifies db
      ensures db.State() == ChangeRole(old(db.State()), currentUserRole, userId, newRole, reply).tables
      ensures o == ChangeRole(old(db.State()), currentUserRole, userId, newRole, reply).outcome
    {
      if currentUserRole != "admin" {
        return Refused;
      }
      var error := db.UpdateUserRole(userId, newRole, reply);
      if error.Error? {
        return UpdateFailed;
      }
      o := Updated;
    }

    method HandleStatusChange(db: Database, userId: Id, active: bool, reply: Reply) returns (o: ChangeOutcome)
      modifies db
      ensures db.State() == ChangeStatus(old(db.State()), currentUserRole, userId, active, reply).tables
      ensures o == ChangeStatus(old(db.State()), currentUserRole, userId, active, reply).outcome
    {
      if currentUserRole != "admin" {
        return Refused;
      }
      var error := db.UpdateUserActive(userId, active, reply);
      if error.Error? {
        return UpdateFailed;
      }
      o := Updated;
    }
  }

  /** Until the role is loaded, and for a loaded 'user' role, every change is
      refused and no table moves. The component shows its table only to an
      'admin' role, so its own buttons never reach this branch. */
  lemma NonAdminChangesNothing(t: Tables, userId: Id, newRole: Role, active: bool, reply: Reply)
    ensures ChangeRole(t, "", userId, newRole, reply) == Step(t, Refused)
    ensures ChangeStatus(t, "", userId, active, reply) == Step(t, Refused)
    ensures ChangeRole(t, RoleName(Member), userId, newRole, reply) == Step(t, Refused)
    ensures ChangeStatus(t, RoleName(Member), userId, active, reply) == Step(t, Refused)
  {
  }
}
